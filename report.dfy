/** The text of a comparison report: a title naming the question, every response under its
    variant's name in dictionary order, the metrics table, the judge's comparison, and the
    ranking as lines numbered from 1. */
module Report {
  import opened PyStr
  import opened Scoring

  function Title(question: string): string {
    "# Comparison Report for Question: '" + question + "'\n\n" + "## Responses\n\n"
  }

  /** One response under its variant's heading. */
  function Block(name: string, response: string): string {
    "### " + name + "\n\n" + response + "\n\n"
  }

  /** The responses' blocks, in dictionary order. */
  function Blocks(responses: Dict<string>): string
    decreases |responses|
  {
    if responses == [] then ""
    else
      var n := |responses| - 1;
      Blocks(responses[..n]) + Block(responses[n].0, responses[n].1)
  }

  /** The `i`-th line of the ranking. */
  function Line(i: nat, name: string): string {
    NatToString(i) + ". " + name + "\n"
  }

  /** The ranking, one line per name, numbered from 1. */
  function RankingLines(ranking: seq<string>): string
    decreases |ranking|
  {
    if ranking == [] then ""
    else
      var n := |ranking| - 1;
      RankingLines(ranking[..n]) + Line(n + 1, ranking[n])
  }

  /** Everything between the responses and the ranking lines. */
  function Middle(table: string, detailed: string): string {
    MetricsSection(table) + ExpertSection(detailed) + RankingHeading()
  }

  function MetricsSection(table: string): string {
    "## Evaluation Metrics\n\n" + table + "\n\n"
  }

  function ExpertSection(detailed: string): string {
    "## Expert Comparison\n\n" + detailed + "\n\n"
  }

  function RankingHeading(): string {
    "## Ranking\n\n"
  }

  /** The whole report, given the rendered metrics table and the judge's comparison. */
  function ReportText(question: string, responses: Dict<string>, table: string, detailed: string,
                      ranking: seq<string>): string
  {
    Title(question) + Blocks(responses) + Middle(table, detailed) + RankingLines(ranking)
  }

  /** The blocks of a leading part of the responses begin the blocks of them all. */
  lemma {:induction false} BlocksPrefix(responses: Dict<string>, j: nat)
    requires j <= |responses|
    ensures Blocks(responses[..j]) <= Blocks(responses)
    decreases |responses| - j
  {
    if j < |responses| {
      BlocksPrefix(responses, j + 1);
      assert responses[..j + 1][..j] == responses[..j];
    } else {
      assert responses[..j] == responses;
    }
  }

  /** The `i`-th response's block follows the blocks of the responses before it. */
  lemma BlockAt(responses: Dict<string>, i: nat)
    requires i < |responses|
    ensures OccursAt(Blocks(responses), Block(responses[i].0, responses[i].1), |Blocks(responses[..i])|)
  {
    BlocksPrefix(responses, i + 1);
    assert responses[..i + 1][..i] == responses[..i];
    var head := Blocks(responses[..i + 1]);
    assert head == Blocks(responses[..i]) + Block(responses[i].0, responses[i].1);
    assert Blocks(responses)[..|head|] == head;
    assert head[|Blocks(responses[..i])|..] == Block(responses[i].0, responses[i].1);
  }

  /** The lines of a leading part of the ranking begin the lines of the whole ranking. */
  lemma {:induction false} RankingLinesPrefix(ranking: seq<string>, j: nat)
    requires j <= |ranking|
    ensures RankingLines(ranking[..j]) <= RankingLines(ranking)
    decreases |ranking| - j
  {
    if j < |ranking| {
      RankingLinesPrefix(ranking, j + 1);
      assert ranking[..j + 1][..j] == ranking[..j];
    } else {
      assert ranking[..j] == ranking;
    }
  }

  /** The `i`-th name (from 0) of the ranking is on the line numbered `i + 1`. */
  lemma RankingLineAt(ranking: seq<string>, i: nat)
    requires i < |ranking|
    ensures OccursAt(RankingLines(ranking), Line(i + 1, ranking[i]), |RankingLines(ranking[..i])|)
  {
    RankingLinesPrefix(ranking, i + 1);
    assert ranking[..i + 1][..i] == ranking[..i];
    var head := RankingLines(ranking[..i + 1]);
    assert head == RankingLines(ranking[..i]) + Line(i + 1, ranking[i]);
    assert RankingLines(ranking)[..|head|] == head;
    assert head[|RankingLines(ranking[..i])|..] == Line(i + 1, ranking[i]);
  }

  /** The report begins with its title, holds every response's block and every ranking line
      with its number, and ends with the ranking lines. */
  lemma ReportContents(question: string, responses: Dict<string>, table: string, detailed: string,
                       ranking: seq<string>)
    ensures var report := ReportText(question, responses, table, detailed, ranking);
            && Title(question) <= report
            && (forall i :: 0 <= i < |responses| ==> Contains(report, Block(responses[i].0, responses[i].1)))
            && (forall i :: 0 <= i < |ranking| ==> Contains(report, Line(i + 1, ranking[i])))
            && report[|report| - |RankingLines(ranking)|..] == RankingLines(ranking)
  {
    var head := Title(question) + Blocks(responses);
    var lines := RankingLines(ranking);
    Layout(Title(question), Blocks(responses), Middle(table, detailed), lines);
    forall i | 0 <= i < |responses|
      ensures Contains(head + Middle(table, detailed) + lines, Block(responses[i].0, responses[i].1))
    {
      BlockAt(responses, i);
      ContainsAt(Blocks(responses), Block(responses[i].0, responses[i].1), |Blocks(responses[..i])|);
      ContainsTransitive(head + Middle(table, detailed) + lines, Blocks(responses), Block(responses[i].0, responses[i].1));
    }
    forall i | 0 <= i < |ranking|
      ensures Contains(head + Middle(table, detailed) + lines, Line(i + 1, ranking[i]))
    {
      RankingLineAt(ranking, i);
      ContainsAt(lines, Line(i + 1, ranking[i]), |RankingLines(ranking[..i])|);
      ContainsTransitive(head + Middle(table, detailed) + lines, lines, Line(i + 1, ranking[i]));
    }
  }

  /** Where the four parts of a text `t + b + m + r` sit in it. */
  lemma Layout(t: string, b: string, m: string, r: string)
    ensures t <= t + b + m + r
    ensures Contains(t + b + m + r, b) && Contains(t + b + m + r, r)
    ensures (t + b + m + r)[|t + b + m + r| - |r|..] == r
  {
    ContainsParts(t + b + m, r);
    ContainsParts(t + b, m);
    ContainsParts(t, b);
    ContainsTransitive(t + b + m + r, t + b + m, t + b);
    ContainsTransitive(t + b + m + r, t + b, b);
    assert (t + b + m + r)[..|t|] == t;
  }

  /** A report on `question` as the engine promises it: it begins with the title, shows
      every response under its name, and puts every response's name on a ranking line
      numbered from 1 to the number of responses. */
  predicate Shows(report: string, question: string, responses: Dict<string>) {
    && Title(question) <= report
    && (forall i :: 0 <= i < |responses| ==> Contains(report, Block(responses[i].0, responses[i].1)))
    && (forall i :: 0 <= i < |responses| ==> Ranked(report, responses[i].0, |responses|))
  }

  /** `name` is on one of the ranking lines numbered 1 to `n`. */
  predicate Ranked(report: string, name: string, n: nat) {
    exists j :: 1 <= j <= n && Contains(report, Line(j, name))
  }

  /** A report whose ranking is a reordering of the response names shows what it should. */
  lemma ReportShows(question: string, responses: Dict<string>, table: string, detailed: string,
                    ranking: seq<string>)
    requires multiset(ranking) == multiset(Keys(responses))
    ensures Shows(ReportText(question, responses, table, detailed, ranking), question, responses)
  {
    var report := ReportText(question, responses, table, detailed, ranking);
    ReportContents(question, responses, table, detailed, ranking);
    RankedLines(report, ranking, Keys(responses));
  }

  /** A text holding one numbered line per ranked name, the ranking being a reordering of
      `names`, holds a numbered line for every name. */
  lemma RankedLines(report: string, ranking: seq<string>, names: seq<string>)
    requires multiset(ranking) == multiset(names)
    requires forall i :: 0 <= i < |ranking| ==> Contains(report, Line(i + 1, ranking[i]))
    ensures forall i :: 0 <= i < |names| ==> Ranked(report, names[i], |names|)
  {
    assert |ranking| == |multiset(ranking)| == |multiset(names)| == |names|;
    forall i | 0 <= i < |names|
      ensures Ranked(report, names[i], |names|)
    {
      assert names[i] in multiset(names);
      assert names[i] in ranking;
      var j :| 0 <= j < |ranking| && ranking[j] == names[i];
      assert 1 <= j + 1 <= |names| && Contains(report, Line(j + 1, names[i]));
    }
  }

  /** The number on a ranking line reads back as the line's position. */
  lemma LineNumber(i: nat, name: string)
    ensures var line := Line(i, name);
            var digits := NatToString(i);
            && line[..|digits|] == digits
            && DigitsValue(digits) == i
            && line[|digits|..|digits| + 2] == ". "
  {
    NatToStringRoundTrip(i);
  }

  lemma Regroup(a: string, m: string, e: string, h: string)
    ensures a + m + e + h == a + (m + e + h)
  {
  }

  /** `report += f"### {name}\n\n{response}\n\n"` for every response, in order. */
  method AppendBlocks(report0: string, responses: Dict<string>) returns (report: string)
    ensures report == report0 + Blocks(responses)
  {
    report := report0;
    for i := 0 to |responses|
      invariant report == report0 + Blocks(responses[..i])
    {
      assert responses[..i + 1][..i] == responses[..i];
      report := report + Block(responses[i].0, responses[i].1);
    }
    assert responses[..|responses|] == responses;
  }

  /** `report += f"{i}. {name}\n"` for every ranked name, counting from 1. */
  method AppendRankingLines(report0: string, ranking: seq<string>) returns (report: string)
    ensures report == report0 + RankingLines(ranking)
  {
    report := report0;
    for i := 0 to |ranking|
      invariant report == report0 + RankingLines(ranking[..i])
    {
      assert ranking[..i + 1][..i] == ranking[..i];
      report := report + Line(i + 1, ranking[i]);
    }
    assert ranking[..|ranking|] == ranking;
  }

  /** `generate_comparison_report`'s text assembly: the title, each response's block appended
      in order, the metrics table, the comparison, and one numbered line per ranked name. */
  method FormatReport(question: string, responses: Dict<string>, table: string, detailed: string,
                      ranking: seq<string>) returns (report: string)
    ensures report == ReportText(question, responses, table, detailed, ranking)
  {
    report := AppendBlocks(Title(question), responses);
    report := report + MetricsSection(table);
    report := report + ExpertSection(detailed);
    report := report + RankingHeading();
    Regroup(Title(question) + Blocks(responses), MetricsSection(table), ExpertSection(detailed), RankingHeading());
    report := AppendRankingLines(report, ranking);
  }
}
