/** What the answering variants of the comparison tooling share: asking the baseline service
    once per query in a loop, and the `except Exception: return self.client.query(question)`
    fallback around each variant's `query`. */
module Variants {
  import opened Wrappers
  import opened PyStr
  import opened Oracles

  /** One `client.query(q)` per query, in order. */
  function AskCalls(queries: seq<string>): (calls: seq<ClientCall>)
    ensures |calls| == |queries|
    ensures forall j :: 0 <= j < |queries| ==> calls[j] == AskBaseline(queries[j])
  {
    seq(|queries|, j requires 0 <= j < |queries| => AskBaseline(queries[j]))
  }

  function Value(r: Reply<string>): string {
    match r
    case Ok(v) => v
    case Err(_) => ""
  }

  /** The values of the first `n` replies. */
  function Answers(replies: seq<Reply<string>>, n: nat): (answers: seq<string>)
    ensures |answers| == n
    ensures forall j :: 0 <= j < n ==> answers[j] == Value(Nth(replies, j))
  {
    seq(n, j requires 0 <= j < n => Value(Nth(replies, j)))
  }

  /** `results = []; for q in queries: results.append(client.query(q))`: the calls up to and
      including the first that raises, and the replies, or that exception. */
  function AskEach(queries: seq<string>, replies: seq<Reply<string>>): ClientRun<seq<string>> {
    var n := |queries|;
    var f := FirstErr(replies, n);
    ClientRun(AskCalls(queries)[..Made(replies, n)],
              if f < n then Err(Nth(replies, f).error) else Ok(Answers(replies, n)))
  }

  /** The loop asks about each query in order. When every call answers, it makes exactly one
      call per query and collects one reply per query, in order; otherwise it stops at the
      first call that raises, and raises that. */
  lemma AskEachSpec(queries: seq<string>, replies: seq<Reply<string>>)
    ensures var run := AskEach(queries, replies);
            && |run.calls| <= |queries|
            && (forall j :: 0 <= j < |run.calls| ==> run.calls[j] == AskBaseline(queries[j]))
            && (forall j :: 0 <= j < |run.calls| - 1 ==> Nth(replies, j).Ok?)
            && (run.result.Ok? ==>
                  && |run.calls| == |queries| && |run.result.value| == |queries|
                  && forall j :: 0 <= j < |queries| ==> Nth(replies, j) == Ok(run.result.value[j]))
            && (run.result.Err? ==>
                  && |run.calls| >= 1
                  && Nth(replies, |run.calls| - 1) == Err(run.result.error))
  {
  }

  /** The first `k` calls all answered and `results` holds their replies. */
  predicate AnsweredSoFar(replies: seq<Reply<string>>, results: seq<string>, k: nat) {
    && |results| == k
    && (forall j :: 0 <= j < k ==> Nth(replies, j).Ok?)
    && (forall j :: 0 <= j < k ==> results[j] == Value(Nth(replies, j)))
  }

  lemma AnsweredStep(replies: seq<Reply<string>>, results: seq<string>, k: nat)
    requires AnsweredSoFar(replies, results, k) && Nth(replies, k).Ok?
    ensures AnsweredSoFar(replies, results + [Nth(replies, k).value], k + 1)
  {
  }

  lemma AnsweredFails(queries: seq<string>, replies: seq<Reply<string>>, results: seq<string>, k: nat)
    requires AnsweredSoFar(replies, results, k) && k < |queries| && Nth(replies, k).Err?
    ensures FirstErr(replies, |queries|) == k && Made(replies, |queries|) == k + 1
  {
  }

  lemma AnsweredDone(queries: seq<string>, replies: seq<Reply<string>>, results: seq<string>)
    requires AnsweredSoFar(replies, results, |queries|)
    ensures AskEach(queries, replies).result == Ok(results)
    ensures |AskEach(queries, replies).calls| == |queries|
  {
    assert results == Answers(replies, |queries|);
  }

  /** The loop, against the client. */
  method QueryEach(client: Client, queries: seq<string>) returns (r: Reply<seq<string>>)
    modifies client
    ensures var run := AskEach(queries, old(client.script));
            && r == run.result
            && client.log == old(client.log) + run.calls
            && client.script == Drop(old(client.script), |run.calls|)
  {
    ghost var script0, log0 := client.script, client.log;
    var results: seq<string> := [];
    var k := 0;
    while k < |queries|
      invariant k <= |queries|
      invariant client.script == Drop(script0, k)
      invariant client.log == log0 + AskCalls(queries)[..k]
      invariant AnsweredSoFar(script0, results, k)
    {
      var reply := client.Call(AskBaseline(queries[k]));
      assert reply == Nth(script0, k);
      assert AskCalls(queries)[..k + 1] == AskCalls(queries)[..k] + [AskBaseline(queries[k])];
      DropDrop(script0, k, 1);
      if reply.Err? {
        AnsweredFails(queries, script0, results, k);
        return Err(reply.error);
      }
      AnsweredStep(script0, results, k);
      results := results + [reply.value];
      k := k + 1;
    }
    AnsweredDone(queries, script0, results);
    assert AskCalls(queries)[..|queries|] == AskCalls(queries);
    r := Ok(results);
  }

  /** How `expand_query` and `generate_self_queries` read the queries a completion proposes:
      the reply's stripped non-blank lines, then the question itself. */
  function ReplyQueries(question: string, reply: string): (queries: seq<string>) {
    NonBlankLines(reply) + [question]
  }

  /** The expanded queries are never empty and end with the original question; the others are
      the reply's lines, each non-blank, stripped and on one line. */
  lemma ReplyQueriesSpec(question: string, reply: string)
    ensures var queries := ReplyQueries(question, reply);
            && |queries| >= 1
            && queries[|queries| - 1] == question
            && queries[..|queries| - 1] == NonBlankLines(reply)
            && forall k :: 0 <= k < |queries| - 1 ==>
                 queries[k] != "" && Strip(queries[k]) == queries[k] && !Contains(queries[k], "\n")
  {
    NonBlankLinesClean(reply);
    var queries := ReplyQueries(question, reply);
    assert queries[..|queries| - 1] == NonBlankLines(reply);
  }

  /** A completion proposes queries, the baseline service answers each of them in order, and
      a last completion works from the answers: the shape of both query expansion with
      reranking and self-querying with synthesis. `queries` reads the first reply, `finish`
      is the last request made from the answers. */
  function AskAround(first: ClientCall, queries: string -> seq<string>, finish: seq<string> -> ClientCall,
                     replies: seq<Reply<string>>): ClientRun<string>
  {
    match Nth(replies, 0)
    case Err(e) => ClientRun([first], Err(e))
    case Ok(reply) =>
      var asked := AskEach(queries(reply), Drop(replies, 1));
      var calls := [first] + asked.calls;
      match asked.result
      case Err(e) => ClientRun(calls, Err(e))
      case Ok(answers) => ClientRun(calls + [finish(answers)], Nth(replies, |calls|))
  }

  /** When nothing raises: the first request, then exactly one `client.query` per proposed
      query, in order, then the last request made from their replies, whose reply is the
      result. */
  lemma AskAroundSucceeds(first: ClientCall, queries: string -> seq<string>, finish: seq<string> -> ClientCall,
                          replies: seq<Reply<string>>)
    requires AskAround(first, queries, finish, replies).result.Ok?
    ensures var run := AskAround(first, queries, finish, replies);
            var asked := queries(Nth(replies, 0).value);
            var n := |asked|;
            && Nth(replies, 0).Ok?
            && |run.calls| == n + 2
            && run.calls[0] == first
            && (forall j :: 0 <= j < n ==> run.calls[j + 1] == AskBaseline(asked[j]) && Nth(replies, j + 1).Ok?)
            && run.calls[n + 1] == finish(Answers(Drop(replies, 1), n))
            && run.result == Nth(replies, n + 1)
  {
    AskAroundOk(first, queries, finish, replies);
    var asked := queries(Nth(replies, 0).value);
    var rest := Drop(replies, 1);
    var each := AskEach(asked, rest);
    AskEachSpec(asked, rest);
    var answers := Answers(rest, |asked|);
    assert each.result.value == answers;
    var run := AskAround(first, queries, finish, replies);
    assert run.calls == [first] + each.calls + [finish(answers)];
    forall j | 0 <= j < |asked|
      ensures run.calls[j + 1] == AskBaseline(asked[j]) && Nth(replies, j + 1).Ok?
    {
      assert run.calls[j + 1] == each.calls[j];
      assert Nth(rest, j) == Nth(replies, 1 + j);
    }
    assert |run.calls| == |asked| + 2 && run.calls[0] == first;
    assert run.calls[|asked| + 1] == finish(answers);
    assert run.result == Nth(replies, |asked| + 1);
  }

  /** The shape of a run from which nothing raised. */
  lemma AskAroundOk(first: ClientCall, queries: string -> seq<string>, finish: seq<string> -> ClientCall,
                    replies: seq<Reply<string>>)
    requires AskAround(first, queries, finish, replies).result.Ok?
    ensures Nth(replies, 0).Ok?
    ensures var each := AskEach(queries(Nth(replies, 0).value), Drop(replies, 1));
            && each.result.Ok?
            && AskAround(first, queries, finish, replies)
               == ClientRun([first] + each.calls + [finish(each.result.value)], Nth(replies, 1 + |each.calls|))
  {
  }

  /** When a step raises, the first request was still made; when it answered, at most one
      call per proposed query and the last request followed it. */
  lemma AskAroundFails(first: ClientCall, queries: string -> seq<string>, finish: seq<string> -> ClientCall,
                       replies: seq<Reply<string>>)
    requires AskAround(first, queries, finish, replies).result.Err?
    ensures var run := AskAround(first, queries, finish, replies);
            && run.calls != [] && run.calls[0] == first
            && (Nth(replies, 0).Err? ==> run.calls == [first] && run.result == Nth(replies, 0))
            && (Nth(replies, 0).Ok? ==> |run.calls| <= |queries(Nth(replies, 0).value)| + 2)
  {
    if Nth(replies, 0).Ok? {
      AskEachSpec(queries(Nth(replies, 0).value), Drop(replies, 1));
    }
  }

  /** A variant's `query`: the attempt's result when it raises nothing; otherwise one more
      `client.query(question)`, whose reply is the answer (and whose exception propagates). */
  function WithFallback(question: string, attempt: ClientRun<string>, replies: seq<Reply<string>>)
    : ClientRun<string>
  {
    if attempt.result.Ok? then attempt
    else ClientRun(attempt.calls + [AskBaseline(question)], Nth(replies, |attempt.calls|))
  }

  /** The fallback never changes a successful attempt, and after a failed one it makes exactly
      one extra call, to the baseline with the original question, and answers with its reply. */
  lemma FallbackSpec(question: string, attempt: ClientRun<string>, replies: seq<Reply<string>>)
    ensures var run := WithFallback(question, attempt, replies);
            && run.calls[..|attempt.calls|] == attempt.calls
            && (attempt.result.Ok? ==> run == attempt)
            && (attempt.result.Err? ==>
                  && |run.calls| == |attempt.calls| + 1
                  && run.calls[|attempt.calls|] == AskBaseline(question)
                  && run.result == Nth(replies, |attempt.calls|))
  {
  }
}
