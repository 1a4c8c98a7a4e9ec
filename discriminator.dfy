/** The judge of enhancements/evaluation/discriminator.py: a free-text evaluation of one
    response with scores read out of it, and a comparison of several responses with a ranking
    read out of it. */
module Discriminator {
  import opened Wrappers
  import opened PyStr
  import opened Oracles
  import opened Scoring
  import opened Ranking

  const BaselineName: string := "Baseline RAG"

  const EvaluationSystem: string :=
    "You are an expert security policy evaluator tasked with assessing the quality of responses "
    + "to security policy questions. Your evaluation should be detailed, specific, and focused on "
    + "how well the response serves an employee trying to understand company security policies.\n\n"
    + "Evaluate the response on these five criteria:\n"
    + "1. Policy Accuracy (0-10): How accurately does the response reflect security policy information in the context?\n"
    + "2. Completeness (0-10): How thoroughly does the response address all aspects of the question?\n"
    + "3. Policy Relevance (0-10): How relevant is the response to the specific security policy question asked?\n"
    + "4. Clarity & Structure (0-10): How well-organized and easy to understand is the response?\n"
    + "5. Actionability (0-10): How useful would this response be for an employee needing to follow security procedures?\n\n"
    + "For each criterion:\n"
    + "- Provide a score from 0 to 10\n"
    + "- Give 2-3 sentences explaining the score\n"
    + "- Highlight specific examples from the response\n\n"
    + "End with an overall assessment (2-3 paragraphs) and overall score (0-10)."

  const ComparisonSystem: string :=
    "You are an expert evaluator of security policy information systems. "
    + "Your task is to compare multiple responses to the same security policy question "
    + "and rank them from best to worst.\n\n"
    + "Compare the responses based on these criteria:\n"
    + "1. Accuracy: How well the response reflects the information in the context\n"
    + "2. Completeness: How thoroughly the response addresses all aspects of the question\n"
    + "3. Clarity: How clear and well-structured the response is\n"
    + "4. Policy Citations: How well the response references specific policy details\n"
    + "5. Usefulness: How helpful the response would be to an employee\n\n"
    + "Provide your comparison in this format:\n"
    + "- Brief analysis of each response (2-3 sentences per response)\n"
    + "- Comparative strengths and weaknesses\n"
    + "- Final ranking from best to worst with brief justification\n\n"
    + "End with a clear numerical ranking in the format: 'FINAL RANKING: Response X (#1), Response Y (#2), ...'"

  // ---------------------------------------------------------------------------
  // Reading the scores out of an evaluation

  /** The six score patterns, in the order they are searched. */
  const ScoreMetrics: seq<string> :=
    ["policy_accuracy", "completeness", "policy_relevance", "clarity_structure", "actionability", "overall"]

  /** What the six regular expressions find in the lower-cased evaluation: for each pattern, in
      the order above, the number of its first match (the matched digits always convert). */
  type Scan = s: seq<Option<real>> | |s| == 6 witness [None, None, None, None, None, None]

  predicate Distinct(names: seq<string>) {
    forall i, j :: 0 <= i < j < |names| ==> names[i] != names[j]
  }

  lemma ScoreMetricsDistinct()
    ensures Distinct(ScoreMetrics)
  {
  }

  /** The scores of the patterns that matched, in pattern order, under the given names. */
  function Matched(names: seq<string>, found: seq<Option<real>>): (d: Dict<real>)
    requires |names| == |found|
    ensures |d| <= |found|
    decreases |found|
  {
    if found == [] then []
    else
      var n := |found| - 1;
      Matched(names[..n], found[..n]) + (if found[n].Some? then [(names[n], found[n].value)] else [])
  }

  /** Every entry comes from a pattern that matched. */
  lemma {:induction false} MatchedFrom(names: seq<string>, found: seq<Option<real>>, p: nat)
    requires |names| == |found| && p < |Matched(names, found)|
    ensures exists i :: 0 <= i < |found| && found[i].Some? && Matched(names, found)[p] == (names[i], found[i].value)
    decreases |found|
  {
    var n := |found| - 1;
    var prev := Matched(names[..n], found[..n]);
    if p < |prev| {
      MatchedFrom(names[..n], found[..n], p);
      var i :| 0 <= i < n && found[..n][i].Some? && prev[p] == (names[..n][i], found[..n][i].value);
      assert Matched(names, found)[p] == prev[p];
    } else {
      assert Matched(names, found)[p] == (names[n], found[n].value);
    }
  }

  /** Every pattern that matched has its entry. */
  lemma {:induction false} MatchedHas(names: seq<string>, found: seq<Option<real>>, i: nat)
    requires |names| == |found| && i < |found| && found[i].Some?
    ensures exists p :: 0 <= p < |Matched(names, found)| && Matched(names, found)[p] == (names[i], found[i].value)
    decreases |found|
  {
    var n := |found| - 1;
    var prev := Matched(names[..n], found[..n]);
    if i < n {
      MatchedHas(names[..n], found[..n], i);
      var p :| 0 <= p < |prev| && prev[p] == (names[..n][i], found[..n][i].value);
      assert Matched(names, found)[p] == prev[p];
    } else {
      assert Matched(names, found)[|prev|] == (names[n], found[n].value);
    }
  }

  /** Entries from distinct names are in pattern order, so their keys are distinct. */
  lemma {:induction false} MatchedKeysDistinct(names: seq<string>, found: seq<Option<real>>)
    requires |names| == |found| && Distinct(names)
    ensures Distinct(Keys(Matched(names, found)))
    decreases |found|
  {
    if found != [] {
      var n := |found| - 1;
      var prev := Matched(names[..n], found[..n]);
      MatchedKeysDistinct(names[..n], found[..n]);
      forall p | 0 <= p < |prev|
        ensures prev[p].0 != names[n]
      {
        MatchedFrom(names[..n], found[..n], p);
      }
      var d := Matched(names, found);
      assert forall p :: 0 <= p < |prev| ==> d[p] == prev[p];
    }
  }

  /** A metric gets a score exactly when its pattern matched, and the score is that match. */
  lemma MatchedSpec(names: seq<string>, found: seq<Option<real>>, i: nat)
    requires |names| == |found| && Distinct(names) && i < |found|
    ensures HasKey(Matched(names, found), names[i]) <==> found[i].Some?
    ensures found[i].Some? ==> Get(Matched(names, found), names[i], 0.0) == found[i].value
  {
    var d := Matched(names, found);
    if HasKey(d, names[i]) {
      var p :| 0 <= p < |d| && d[p].0 == names[i];
      MatchedFrom(names, found, p);
    }
    if found[i].Some? {
      MatchedHas(names, found, i);
      var p :| 0 <= p < |d| && d[p] == (names[i], found[i].value);
      MatchedKeysDistinct(names, found);
      GetAt(d, p, 0.0);
    }
  }

  /** Nothing is scored exactly when no pattern matched. */
  lemma MatchedEmpty(names: seq<string>, found: seq<Option<real>>)
    requires |names| == |found|
    ensures Matched(names, found) == [] <==> forall i :: 0 <= i < |found| ==> found[i].None?
  {
    if exists i :: 0 <= i < |found| && found[i].Some? {
      var i :| 0 <= i < |found| && found[i].Some?;
      MatchedHas(names, found, i);
    } else if Matched(names, found) != [] {
      MatchedFrom(names, found, 0);
    }
  }

  /** `if "overall" not in scores and len(scores) > 0`: add the mean of the scores so far. */
  function WithOverall(raw: Dict<real>): Dict<real> {
    if !HasKey(raw, "overall") && |raw| > 0 then raw + [("overall", Sum(Values(raw)) / |raw| as real)]
    else raw
  }

  function ClampAll(d: Dict<real>): (r: Dict<real>)
    ensures |r| == |d|
    ensures forall i :: 0 <= i < |d| ==> r[i] == (d[i].0, Clamp(d[i].1))
  {
    seq(|d|, i requires 0 <= i < |d| => (d[i].0, Clamp(d[i].1)))
  }

  /** What `_extract_scores` returns for what the patterns found. */
  function ExtractedScores(scan: Scan): Dict<real> {
    ClampAll(WithOverall(Matched(ScoreMetrics, scan)))
  }

  /** Every score returned lies in [0, 10]. */
  lemma ScoresInRange(scan: Scan)
    ensures forall i :: 0 <= i < |ExtractedScores(scan)| ==> 0.0 <= ExtractedScores(scan)[i].1 <= 10.0
  {
  }

  /** Clamping keeps the keys and clamps what `get` finds. */
  lemma ClampAllGet(d: Dict<real>, k: string)
    requires Distinct(Keys(d))
    ensures HasKey(ClampAll(d), k) <==> HasKey(d, k)
    ensures HasKey(d, k) ==> Get(ClampAll(d), k, 0.0) == Clamp(Get(d, k, 0.0))
    ensures Distinct(Keys(ClampAll(d)))
  {
    ClampAllKeys(d);
    DistinctKeysOf(d);
    DistinctKeysOf(ClampAll(d));
    if HasKey(d, k) {
      var p :| 0 <= p < |d| && d[p].0 == k;
      GetAt(d, p, 0.0);
      assert ClampAll(d)[p].0 == k;
      GetAt(ClampAll(d), p, 0.0);
    }
    if HasKey(ClampAll(d), k) {
      var p :| 0 <= p < |d| && ClampAll(d)[p].0 == k;
      assert d[p].0 == k;
    }
  }

  lemma ClampAllKeys(d: Dict<real>)
    ensures Keys(ClampAll(d)) == Keys(d)
  {
    var a, b := Keys(ClampAll(d)), Keys(d);
    assert forall i :: 0 <= i < |a| ==> a[i] == b[i];
  }

  /** Distinct names as a list are distinct keys of the dictionary. */
  lemma DistinctKeysOf(d: Dict<real>)
    requires Distinct(Keys(d))
    ensures DistinctKeys(d)
  {
    forall p, q | 0 <= p < q < |d|
      ensures d[p].0 != d[q].0
    {
      assert Keys(d)[p] == d[p].0 && Keys(d)[q] == d[q].0;
    }
  }

  /** Adding the fallback `overall` keeps every other key and value. */
  lemma WithOverallGet(raw: Dict<real>, k: string)
    requires Distinct(Keys(raw)) && k != "overall"
    ensures HasKey(WithOverall(raw), k) <==> HasKey(raw, k)
    ensures Get(WithOverall(raw), k, 0.0) == Get(raw, k, 0.0)
    ensures Distinct(Keys(WithOverall(raw)))
  {
    var w := WithOverall(raw);
    if w != raw {
      assert forall p :: 0 <= p < |raw| ==> w[p] == raw[p];
      if HasKey(raw, k) {
        var p :| 0 <= p < |raw| && raw[p].0 == k;
        GetAt(raw, p, 0.0);
        GetAt(w, p, 0.0);
      } else {
        assert !HasKey(w, k);
      }
    }
  }

  /** Each matched metric keeps its first match, clamped; a metric other than `overall` is
      scored exactly when its pattern matched. */
  lemma ScoresOfMatchedMetrics(scan: Scan, i: nat)
    requires i < 6
    ensures i < 5 ==> (HasKey(ExtractedScores(scan), ScoreMetrics[i]) <==> scan[i].Some?)
    ensures scan[i].Some? ==> Get(ExtractedScores(scan), ScoreMetrics[i], 0.0) == Clamp(scan[i].value)
  {
    ScoreMetricsDistinct();
    var raw := Matched(ScoreMetrics, scan);
    MatchedSpec(ScoreMetrics, scan, i);
    MatchedKeysDistinct(ScoreMetrics, scan);
    var w := WithOverall(raw);
    if i < 5 {
      WithOverallGet(raw, ScoreMetrics[i]);
    } else if scan[i].Some? {
      assert w == raw;
    }
    ClampAllGet(w, ScoreMetrics[i]);
  }

  /** Nothing is scored exactly when no pattern matched. */
  lemma ScoresEmpty(scan: Scan)
    ensures ExtractedScores(scan) == [] <==> forall i :: 0 <= i < 6 ==> scan[i].None?
  {
    MatchedEmpty(ScoreMetrics, scan);
  }

  /** With no `overall` match but some other score, `overall` is the mean of the matched scores
      (before clamping), clamped. */
  lemma OverallFallsBackToMean(scan: Scan)
    requires scan[5].None? && exists i :: 0 <= i < 5 && scan[i].Some?
    ensures var raw := Matched(ScoreMetrics, scan);
            |raw| > 0 && Get(ExtractedScores(scan), "overall", 0.0) == Clamp(Sum(Values(raw)) / |raw| as real)
  {
    ScoreMetricsDistinct();
    var raw := Matched(ScoreMetrics, scan);
    MatchedSpec(ScoreMetrics, scan, 5);
    MatchedEmpty(ScoreMetrics, scan);
    MatchedKeysDistinct(ScoreMetrics, scan);
    var w := WithOverall(raw);
    assert w == raw + [("overall", Sum(Values(raw)) / |raw| as real)];
    assert Distinct(Keys(w));
    GetAt(w, |raw|, 0.0);
    ClampAllGet(w, "overall");
  }

  // ---------------------------------------------------------------------------
  // Reading the ranking out of a comparison

  const IndexErrorMessage: string := "list index out of range"

  /** `text.split(sep)[1].strip()` when `sep` occurs. */
  function SectionAfter(text: string, sep: string): string
    requires |sep| > 0 && Contains(text, sep)
  {
    SplitHasSecondPiece(text, sep);
    Strip(Split(text, sep)[1])
  }

  /** The ranking section as written: the second test is on the lower-cased text but the split
      is on the text itself, so a heading such as "Final Ranking:" raises `IndexError`. */
  function RankingSection(comparison: string): Result<string, string> {
    if Contains(comparison, "FINAL RANKING:") then Ok(SectionAfter(comparison, "FINAL RANKING:"))
    else if Contains(Lower(comparison), "final ranking:") then
      if Contains(comparison, "final ranking:") then Ok(SectionAfter(comparison, "final ranking:"))
      else Err(IndexErrorMessage)
    else if Contains(comparison, "Ranking:") then Ok(SectionAfter(comparison, "Ranking:"))
    else Ok("")
  }

  /** `_extract_ranking` raises exactly for a heading that is "final ranking:" in some mixed case
      and never in upper case. */
  lemma RankingSectionRaises(comparison: string)
    ensures RankingSection(comparison).Err? <==>
      !Contains(comparison, "FINAL RANKING:") && Contains(Lower(comparison), "final ranking:")
      && !Contains(comparison, "final ranking:")
  {
  }

  lemma MixedCaseHeadingRaises()
    ensures RankingSection("Final Ranking:") == Err(IndexErrorMessage)
  {
    var c := "Final Ranking:";
    assert Lower(c) == "final ranking:";
    assert OccursAt(Lower(c), "final ranking:", 0);
    assert c[..14] == c && c[1] == 'i' && c[0] == 'F';
    assert !OccursAt(c, "FINAL RANKING:", 0);
    assert !OccursAt(c, "final ranking:", 0);
  }

  /** The ranking section with the mixed-case heading cut out of the lower-cased text, which
      is what the lower-case test and the lower-case patterns below it are written for. */
  function IntendedSection(comparison: string): string {
    if Contains(comparison, "FINAL RANKING:") then SectionAfter(comparison, "FINAL RANKING:")
    else if Contains(Lower(comparison), "final ranking:") then SectionAfter(Lower(comparison), "final ranking:")
    else if Contains(comparison, "Ranking:") then SectionAfter(comparison, "Ranking:")
    else ""
  }

  /** The texts that identify the variant numbered `n`. */
  function ResponsePatterns(n: nat): seq<string> {
    var d := NatToString(n);
    ["Response " + d, "response " + d, "#" + d, "(" + d + ")", "[" + d + "]"]
  }

  /** `variant_names.index(variant)`. */
  function IndexOf(names: seq<string>, v: string): (i: nat)
    requires v in names
    ensures i < |names| && names[i] == v
    ensures forall j :: 0 <= j < i ==> names[j] != v
  {
    if names[0] == v then 0 else 1 + IndexOf(names[1..], v)
  }

  /** `_extract_ranking` as written: the loop scans the names in their own order and appends
      each at most once, so it never reorders anything. */
  method ExtractRanking(comparison: string, variantNames: seq<string>) returns (r: Result<seq<string>, string>)
    ensures RankingSection(comparison).Err? ==> r == Err(IndexErrorMessage)
    ensures RankingSection(comparison).Ok? ==> r == Ok(variantNames)
  {
    var found := RankingSection(comparison);
    if found.Err? {
      return Err(found.error);
    }
    var section := found.value;
    if section != "" {
      var ordered: seq<string> := [];
      for i := 0 to |variantNames|
        invariant |ordered| <= i
        invariant |ordered| == i ==> ordered == variantNames[..i]
      {
        var variant := variantNames[i];
        if Contains(section, variant) {
          ordered := ordered + [variant];
          assert variantNames[..i + 1] == variantNames[..i] + [variant];
          continue;
        }
        var patterns := ResponsePatterns(IndexOf(variantNames, variant) + 1);
        for p := 0 to |patterns|
          invariant |ordered| <= i
          invariant |ordered| == i ==> ordered == variantNames[..i]
        {
          if Contains(section, patterns[p]) {
            ordered := ordered + [variant];
            assert variantNames[..i + 1] == variantNames[..i] + [variant];
            break;
          }
        }
      }
      if |ordered| == |variantNames| {
        assert variantNames[..|variantNames|] == variantNames;
        return Ok(ordered);
      }
    }
    return Ok(variantNames);
  }

  /** The earliest position at which any of `needles` occurs in `text`. */
  function FirstMention(text: string, needles: seq<string>): (r: Option<nat>)
    ensures r.Some? ==> exists k :: 0 <= k < |needles| && OccursAt(text, needles[k], r.value)
    ensures r.Some? ==> forall k, p :: 0 <= k < |needles| && 0 <= p < r.value ==> !OccursAt(text, needles[k], p)
    ensures r.None? <==> forall k :: 0 <= k < |needles| ==> !Contains(text, needles[k])
  {
    if needles == [] then None
    else
      var rest := FirstMention(text, needles[1..]);
      assert forall k :: 1 <= k < |needles| ==> needles[k] == needles[1..][k - 1];
      match Find(text, needles[0])
      case None => rest
      case Some(p) => if rest.Some? && rest.value < p then rest else Some(p)
  }

  /** Each variant with the position of its first mention, by name or by number. */
  function Mentions(section: string, names: seq<string>): (ms: seq<Option<nat>>)
    ensures |ms| == |names|
    ensures forall k :: 0 <= k < |names| ==> ms[k] == FirstMention(section, [names[k]] + ResponsePatterns(k + 1))
  {
    seq(|names|, k requires 0 <= k < |names| => FirstMention(section, [names[k]] + ResponsePatterns(k + 1)))
  }

  function MentionEntries(ms: seq<Option<nat>>, names: seq<string>): (es: seq<Entry>)
    requires |ms| == |names| && forall k :: 0 <= k < |ms| ==> ms[k].Some?
    ensures |es| == |names|
    ensures forall k :: 0 <= k < |names| ==> es[k] == (ms[k].value, names[k])
  {
    seq(|names|, k requires 0 <= k < |names| => (ms[k].value, names[k]))
  }

  /** The ranking the comparison states: the variants in order of first mention in the ranking
      section; when the section is missing or does not mention every variant, their input
      order. */
  function IntendedRanking(comparison: string, names: seq<string>): seq<string> {
    var section := IntendedSection(comparison);
    var ms := Mentions(section, names);
    if section != "" && forall k :: 0 <= k < |ms| ==> ms[k].Some? then Names(Sort(MentionEntries(ms, names)))
    else names
  }

  /** The intended ranking is a reordering of the names, by first mention. */
  lemma IntendedRankingSpec(comparison: string, names: seq<string>)
    ensures multiset(IntendedRanking(comparison, names)) == multiset(names)
    ensures var section := IntendedSection(comparison);
            var ms := Mentions(section, names);
            section != "" && (forall k :: 0 <= k < |ms| ==> ms[k].Some?) ==>
              var es := Sort(MentionEntries(ms, names));
              Sorted(es) && multiset(es) == multiset(MentionEntries(ms, names))
              && IntendedRanking(comparison, names) == Names(es)
  {
    var section := IntendedSection(comparison);
    var ms := Mentions(section, names);
    if section != "" && forall k :: 0 <= k < |ms| ==> ms[k].Some? {
      var es := MentionEntries(ms, names);
      SortSpec(es);
      assert Names(es) == names;
    }
  }

  /** Variants mentioned in increasing positions keep their order; when the text mentions them
      in another order, the intended ranking follows the text while the code as written keeps
      the input order. */
  lemma IntendedRankingFollowsMentions(comparison: string, names: seq<string>)
    requires var ms := Mentions(IntendedSection(comparison), names);
             IntendedSection(comparison) != "" && (forall k :: 0 <= k < |ms| ==> ms[k].Some?)
             && forall i, j :: 0 <= i < j < |ms| ==> ms[i].value < ms[j].value
    ensures IntendedRanking(comparison, names) == names
  {
    var ms := Mentions(IntendedSection(comparison), names);
    var es := MentionEntries(ms, names);
    SortOfSorted(es);
    assert Names(es) == names;
  }

  /** Two variants, the second mentioned first: the intended ranking puts it first, while
      `ExtractRanking` returns the input order for any section it finds. */
  lemma ReversedMentionsReorder(comparison: string, names: seq<string>)
    requires |names| == 2 && names[0] != names[1]
    requires var ms := Mentions(IntendedSection(comparison), names);
             IntendedSection(comparison) != "" && ms[0].Some? && ms[1].Some? && ms[1].value < ms[0].value
    ensures IntendedRanking(comparison, names) == [names[1], names[0]]
    ensures IntendedRanking(comparison, names) != names
  {
    ReversedPair(Mentions(IntendedSection(comparison), names), names);
    IntendedRankingSpec(comparison, names);
  }

  lemma ReversedPair(ms: seq<Option<nat>>, names: seq<string>)
    requires |names| == 2 && |ms| == 2 && ms[0].Some? && ms[1].Some? && ms[1].value < ms[0].value
    ensures forall k :: 0 <= k < |ms| ==> ms[k].Some?
    ensures Names(Sort(MentionEntries(ms, names))) == [names[1], names[0]]
  {
    assert forall k :: 0 <= k < |ms| ==> ms[k] == ms[0] || ms[k] == ms[1];
    var es := MentionEntries(ms, names);
    assert es == [es[0], es[1]];
    SortSwapsPair(es[0], es[1]);
    assert Names([es[1], es[0]]) == [names[1], names[0]];
  }

  // ---------------------------------------------------------------------------
  // The two judge calls, as data

  datatype Evaluation = Evaluation(detailedEvaluation: string, rawMetrics: Dict<real>, overallScore: real)

  function EvaluationUser(question: string, context: string, response: string): string {
    "Security Policy Question: " + question + "\n\n"
    + "Context Information: " + context + "\n\n"
    + "Response to Evaluate: " + response + "\n\n"
    + "Please provide your detailed evaluation of this response."
  }

  /** The evaluation call, under the judge's system prompt `system`. */
  function EvaluationCall(system: string, question: string, context: string, response: string): ClientCall {
    Completion(system, EvaluationUser(question, context, response), 0.3, 1000)
  }

  /** The result of `evaluate` for the judge's text. */
  function EvaluationOf(text: string, scan: Scan): Evaluation {
    var raw := ExtractedScores(scan);
    Evaluation(text, raw, Get(raw, "overall", 0.0))
  }

  /** `evaluate`: fetch a context if none was given, then one judge call. */
  function EvaluateRun(system: string, question: string, response: string, context: Option<string>,
                       replies: seq<Reply<string>>, scan: string -> Scan): ClientRun<Evaluation>
  {
    var pre := ContextCalls(question, context);
    match ResolvedContext(context, replies)
    case Err(e) => ClientRun(pre, Err(e))
    case Ok(c) =>
      var calls := pre + [EvaluationCall(system, question, c, response)];
      match Nth(replies, |pre|)
      case Err(e) => ClientRun(calls, Err(e))
      case Ok(text) => ClientRun(calls, Ok(EvaluationOf(text, scan(text))))
  }

  /** The service is asked for a context only when none is given; the overall score is in
      [0, 10], and it is 0.0 when nothing at all was scored. */
  lemma EvaluateSpec(system: string, question: string, response: string, context: Option<string>,
                     replies: seq<Reply<string>>, scan: string -> Scan)
    ensures var run := EvaluateRun(system, question, response, context, replies, scan);
            && (context.Some? ==> forall k :: 0 <= k < |run.calls| ==> !run.calls[k].AskBaseline?)
            && (context.None? ==> run.calls[0] == AskBaseline(question))
    ensures var run := EvaluateRun(system, question, response, context, replies, scan);
            run.result.Ok? ==>
              var text := run.result.value.detailedEvaluation;
              && run.result.value.rawMetrics == ExtractedScores(scan(text))
              && 0.0 <= run.result.value.overallScore <= 10.0
              && (ExtractedScores(scan(text)) == [] ==> run.result.value.overallScore == 0.0)
  {
    var run := EvaluateRun(system, question, response, context, replies, scan);
    if run.result.Ok? {
      var text := run.result.value.detailedEvaluation;
      var raw := ExtractedScores(scan(text));
      ScoresInRange(scan(text));
    }
  }

  datatype Comparison = Comparison(detailedComparison: string, ranking: seq<string>)

  /** `"Response i (name):\nresponse\n\n"`. */
  function ResponseBlock(i: nat, name: string, response: string): string {
    "Response " + NatToString(i) + " (" + name + "):\n" + response + "\n\n"
  }

  /** The responses, numbered from 1 in dictionary order. */
  function FormattedResponses(responses: Dict<string>): string {
    if responses == [] then ""
    else
      var n := |responses| - 1;
      FormattedResponses(responses[..n]) + ResponseBlock(n + 1, responses[n].0, responses[n].1)
  }

  /** Every response appears in its numbered block. */
  lemma {:induction false} FormattedResponsesHoldBlocks(responses: Dict<string>, k: nat)
    requires k < |responses|
    ensures Contains(FormattedResponses(responses), ResponseBlock(k + 1, responses[k].0, responses[k].1))
    decreases |responses|
  {
    var n := |responses| - 1;
    var block := ResponseBlock(n + 1, responses[n].0, responses[n].1);
    if k == n {
      ContainsConcat(FormattedResponses(responses[..n]), block, "");
      assert FormattedResponses(responses[..n]) + block + "" == FormattedResponses(responses);
    } else {
      FormattedResponsesHoldBlocks(responses[..n], k);
      assert responses[..n][k] == responses[k];
      ContainsConcat("", FormattedResponses(responses[..n]), block);
      assert "" + FormattedResponses(responses[..n]) + block == FormattedResponses(responses);
      ContainsTransitive(FormattedResponses(responses), FormattedResponses(responses[..n]),
                         ResponseBlock(k + 1, responses[k].0, responses[k].1));
    }
  }

  /** The context of a comparison: the one given, else the baseline's response, else none yet. */
  function ComparisonContext(responses: Dict<string>, context: Option<string>): Option<string> {
    if context.Some? then context
    else if HasKey(responses, BaselineName) then Some(Get(responses, BaselineName, ""))
    else None
  }

  function ComparisonUser(question: string, context: string, formatted: string): string {
    "Security Policy Question: " + question + "\n\n"
    + "Context Information: " + context + "\n\n"
    + formatted + "\n"
    + "Please compare and rank these responses."
  }

  function ComparisonCall(system: string, question: string, context: string, responses: Dict<string>): ClientCall {
    Completion(system, ComparisonUser(question, context, FormattedResponses(responses)), 0.3, 1000)
  }

  /** The comparison made of a judge's reply, with the ranking `_extract_ranking` returns: the
      response names in their own order, or the `IndexError` of the section selection. */
  function ComparisonOf(text: string, responses: Dict<string>): Reply<Comparison> {
    if RankingSection(text).Err? then Err(IndexErrorMessage) else Ok(Comparison(text, Keys(responses)))
  }

  /** `get_comparison_ranking`. */
  function ComparisonRun(system: string, question: string, responses: Dict<string>, context: Option<string>,
                         replies: seq<Reply<string>>): ClientRun<Comparison>
  {
    var chosen := ComparisonContext(responses, context);
    var pre := ContextCalls(question, chosen);
    match ResolvedContext(chosen, replies)
    case Err(e) => ClientRun(pre, Err(e))
    case Ok(c) =>
      var calls := pre + [ComparisonCall(system, question, c, responses)];
      match Nth(replies, |pre|)
      case Err(e) => ClientRun(calls, Err(e))
      case Ok(text) => ClientRun(calls, ComparisonOf(text, responses))
  }

  /** The context is the given one, else the baseline's response, else fetched from the
      service. With a context at hand the comparison is one call; it succeeds exactly when that
      call answers with a text whose ranking section can be selected, and its ranking is then the
      response names in their own order, whatever the text ranks. */
  lemma ComparisonSpec(system: string, question: string, responses: Dict<string>, context: Option<string>,
                       replies: seq<Reply<string>>)
    ensures var run := ComparisonRun(system, question, responses, context, replies);
            (context.Some? || HasKey(responses, BaselineName)) <==>
              forall k :: 0 <= k < |run.calls| ==> !run.calls[k].AskBaseline?
    ensures var run := ComparisonRun(system, question, responses, context, replies);
            context.None? && HasKey(responses, BaselineName) ==>
              run.calls == [ComparisonCall(system, question, Get(responses, BaselineName, ""), responses)]
    ensures var run := ComparisonRun(system, question, responses, context, replies);
            run.result.Ok? ==>
              && run.calls != []
              && Nth(replies, |run.calls| - 1).Ok?
              && run.result.value.detailedComparison == Nth(replies, |run.calls| - 1).value
              && run.result.value.ranking == Keys(responses)
    ensures var run := ComparisonRun(system, question, responses, context, replies);
            (context.Some? || HasKey(responses, BaselineName)) ==>
              (run.result.Ok? <==> Nth(replies, 0).Ok? && RankingSection(Nth(replies, 0).value).Ok?)
              && (Nth(replies, 0).Ok? && RankingSection(Nth(replies, 0).value).Err? ==>
                    run.result == Err(IndexErrorMessage))
  {
    var run := ComparisonRun(system, question, responses, context, replies);
    if !(context.Some? || HasKey(responses, BaselineName)) {
      assert run.calls[0].AskBaseline?;
    }
  }

  // ---------------------------------------------------------------------------
  // The judge

  class LLMDiscriminator {
    const client: Client
    /** The six score patterns applied to an evaluation text. */
    const scan: string -> Scan
    /** The system prompts of the evaluation and of the comparison. */
    const evaluationSystem: string
    const comparisonSystem: string

    /** The judge's prompts are the fixed ones, `EvaluationSystem` and `ComparisonSystem`. */
    constructor (client: Client, scan: string -> Scan)
      ensures this.client == client && this.scan == scan
      ensures evaluationSystem == EvaluationSystem && comparisonSystem == ComparisonSystem
    {
      this.client := client;
      this.scan := scan;
      evaluationSystem := EvaluationSystem;
      comparisonSystem := ComparisonSystem;
    }

    method ExtractScores(evaluation: string) returns (scores: Dict<real>)
      ensures scores == ExtractedScores(scan(evaluation))
    {
      var found := scan(evaluation);
      scores := [];
      for m := 0 to |ScoreMetrics|
        invariant scores == Matched(ScoreMetrics[..m], found[..m])
      {
        assert found[..m + 1][..m] == found[..m];
        assert ScoreMetrics[..m + 1][..m] == ScoreMetrics[..m];
        if found[m].Some? {
          scores := scores + [(ScoreMetrics[m], found[m].value)];
        }
      }
      assert found[..6] == found && ScoreMetrics[..6] == ScoreMetrics;
      if !HasKey(scores, "overall") && |scores| > 0 {
        scores := scores + [("overall", Sum(Values(scores)) / |scores| as real)];
      }
      ghost var unclamped := scores;
      for i := 0 to |scores|
        invariant |scores| == |unclamped|
        invariant forall j :: 0 <= j < i ==> scores[j] == (unclamped[j].0, Clamp(unclamped[j].1))
        invariant forall j :: i <= j < |scores| ==> scores[j] == unclamped[j]
      {
        scores := scores[i := (scores[i].0, Clamp(scores[i].1))];
      }
    }

    method Evaluate(question: string, response: string, context: Option<string>) returns (r: Reply<Evaluation>)
      modifies client
      ensures var run := EvaluateRun(evaluationSystem, question, response, context, old(client.script), scan);
              && r == run.result
              && client.log == old(client.log) + run.calls
              && client.script == Drop(old(client.script), |run.calls|)
    {
      ghost var script0, log0 := client.script, client.log;
      var resolved := ResolveContext(client, question, context);
      if resolved.Err? {
        return Err(resolved.error);
      }
      r := EvaluateWith(question, response, resolved.value);
      DropDrop(script0, |ContextCalls(question, context)|, 1);
      Appended(log0, ContextCalls(question, context), [EvaluationCall(evaluationSystem, question, resolved.value, response)]);
    }

    /** The judge call of `evaluate` once the context is known, and the scores read from it. */
    method EvaluateWith(question: string, response: string, context: string) returns (r: Reply<Evaluation>)
      modifies client
      ensures client.log == old(client.log) + [EvaluationCall(evaluationSystem, question, context, response)]
      ensures client.script == Drop(old(client.script), 1)
      ensures r == match Nth(old(client.script), 0)
                   case Err(e) => Err(e)
                   case Ok(text) => Ok(EvaluationOf(text, scan(text)))
    {
      var evaluation := client.Call(EvaluationCall(evaluationSystem, question, context, response));
      if evaluation.Err? {
        return Err(evaluation.error);
      }
      var rawMetrics := ExtractScores(evaluation.value);
      r := Ok(Evaluation(evaluation.value, rawMetrics, Get(rawMetrics, "overall", 0.0)));
    }

    method FormatResponses(responses: Dict<string>) returns (formatted: string)
      ensures formatted == FormattedResponses(responses)
    {
      formatted := "";
      for i := 0 to |responses|
        invariant formatted == FormattedResponses(responses[..i])
      {
        assert responses[..i + 1][..i] == responses[..i];
        formatted := formatted + ResponseBlock(i + 1, responses[i].0, responses[i].1);
      }
      assert responses[..|responses|] == responses;
    }

    method GetComparisonRanking(question: string, responses: Dict<string>, context: Option<string>)
      returns (r: Reply<Comparison>)
      modifies client
      ensures var run := ComparisonRun(comparisonSystem, question, responses, context, old(client.script));
              && r == run.result
              && client.log == old(client.log) + run.calls
              && client.script == Drop(old(client.script), |run.calls|)
    {
      var chosen := context;
      if context.None? && HasKey(responses, BaselineName) {
        chosen := Some(Get(responses, BaselineName, ""));
      }
      assert chosen == ComparisonContext(responses, context);
      ghost var script0, log0 := client.script, client.log;
      var resolved := ResolveContext(client, question, chosen);
      if resolved.Err? {
        return Err(resolved.error);
      }
      r := CompareWith(question, responses, resolved.value);
      DropDrop(script0, |ContextCalls(question, chosen)|, 1);
      Appended(log0, ContextCalls(question, chosen), [ComparisonCall(comparisonSystem, question, resolved.value, responses)]);
    }

    /** The judge call of `get_comparison_ranking` once the context is known, and the ranking
        read from it. */
    method CompareWith(question: string, responses: Dict<string>, context: string) returns (r: Reply<Comparison>)
      modifies client
      ensures client.log == old(client.log) + [ComparisonCall(comparisonSystem, question, context, responses)]
      ensures client.script == Drop(old(client.script), 1)
      ensures r == match Nth(old(client.script), 0)
                   case Err(e) => Err(e)
                   case Ok(text) => ComparisonOf(text, responses)
    {
      var formatted := FormatResponses(responses);
      var comparison := client.Call(Completion(comparisonSystem, ComparisonUser(question, context, formatted), 0.3, 1000));
      if comparison.Err? {
        return Err(comparison.error);
      }
      var ranking := ExtractRanking(comparison.value, Keys(responses));
      if ranking.Err? {
        return Err(ranking.error);
      }
      r := Ok(Comparison(comparison.value, ranking.value));
    }
  }
}
