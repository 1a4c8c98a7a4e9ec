/** The "Few-Shot RAG" variant (enhancements/rag_variants/prompting/few_shot.py): take the
    baseline answer as context and have the text-generation endpoint answer again, with a
    system prompt that shows worked examples of good answers. */
module FewShot {
  import opened Wrappers
  import opened PyStr
  import opened Oracles
  import opened Numbered
  import opened Variants

  const Name: string := "Few-Shot RAG"

  const FewShotTemperature: real := 0.4
  const FewShotMaxTokens: nat := 800

  /** One entry of `few_shot_examples`. */
  datatype Example = Example(question: string, answer: string)

  /** The fixed texts, which the variant receives at construction: the opening and the closing
      of the system prompt, the examples shown between them, and the request that ends the
      user prompt. */
  datatype Texts = Texts(opening: string, closing: string, examples: seq<Example>, request: string)

  const Fixed: Texts := Texts(
    "You are a security policy expert answering questions about company security policies. Below are some examples of high-quality answers to previous questions about security policies. Use these examples as a guide for how to structure and present your answer to the new question.\n\n",
    "Your answer should follow a similar format to these examples. Specifically:\n1. Begin by referencing the relevant section of the security policy\n2. Provide a comprehensive answer with specific details, not generalities\n3. List requirements, procedures, or policies in a structured format\n4. Include specific values (e.g., password length, time periods) where relevant\n5. Cite the policy document details (document ID, version, approval) at the end\n\nUse the provided context information to create a response that follows this structure.",
    [PasswordPolicy, DataClassification, EmployeeTermination],
    "\n\nPlease provide a detailed answer following the structured format shown in the examples.")

  const PasswordPolicy: Example := Example(
    "What is NovaTech\'s password policy?",
    "\nAccording to NovaTech\'s Security Policy (Section: Password Policy), passwords must meet the following requirements:\n\n1. Passwords must be changed every 90 days through the automated password management system\n2. Password history of 12 previous passwords is maintained to prevent reuse\n3. All passwords must use industry-standard hashing algorithms (SHA-256 minimum)\n4. Minimum requirements include:\n   - 12 characters minimum length\n   - At least one uppercase letter\n   - At least one lowercase letter\n   - At least one number\n   - At least one special character\n   - No dictionary words or common patterns\n\nAdditionally, all system administrators and employees with access to Level 1 data must use the company-provided LastPass Enterprise password manager.\n\nThese requirements are documented in the Security Policy document NTD-SEC-001-2025 (version 3.2), approved by CEO Michael Rodriguez and effective as of February 1, 2025.\n                ")

  const DataClassification: Example := Example(
    "What is the data classification system at NovaTech?",
    "\nAccording to NovaTech\'s Security Policy, the company employs a three-tier data classification system designed to protect information based on sensitivity levels:\n\n1. Level 1 - Restricted: Highest sensitivity data including proprietary algorithms and financial forecasts\n2. Level 2 - Confidential: Medium sensitivity data including customer data and employee records\n3. Level 3 - Internal: Low sensitivity data including general communications and non-sensitive documentation\n\nThe policy explicitly identifies the following as data subject to special protection (Level 1 & 2):\n- Information about contracts with key clients (Westfield Healthcare, GlobalTech, Federal agencies)\n- Financial information (quarterly figures, profit margins, investment strategies)\n- Organizational information (restructuring plans, M&A strategies)\n- Access data to cloud environments, database systems, and internal networks\n- Personal data of employees, contractors, and clients (subject to GDPR and CCPA compliance)\n- R&D information constituting competitive advantage (AI model parameters, proprietary algorithms)\n- Any information explicitly marked as \"confidential information\" or \"restricted data\"\n\nThis classification system is documented in the Security Policy document NTD-SEC-001-2025 (version 3.2), which was last updated January 15, 2025.\n                ")

  const EmployeeTermination: Example := Example(
    "What happens during the employee termination process?",
    "\nAccording to NovaTech\'s Security Policy (Section: Employee Termination Process), when employment is terminated, the following security procedures are implemented:\n\n1. HR initiates an offboarding workflow in ServiceNow\n2. All access is revoked within 4 hours of termination notification\n3. Equipment is collected and sanitized according to NIST standards\n4. Digital access cards are deactivated\n5. Password resets are forced on shared systems\n\nThis procedure ensures the protection of company data and systems by promptly removing access privileges for terminated employees. The policy applies to all termination scenarios and is part of NovaTech\'s comprehensive security framework.\n\nThese requirements are documented in the Security Policy document NTD-SEC-001-2025 (version 3.2), approved by CEO Michael Rodriguez and effective as of February 1, 2025.\n                ")

  /** `few_shot_examples` holds three examples, in this order. */
  lemma ThreeExamples()
    ensures |Fixed.examples| == 3
    ensures Fixed.examples[0].question == "What is NovaTech's password policy?"
    ensures Fixed.examples[1].question == "What is the data classification system at NovaTech?"
    ensures Fixed.examples[2].question == "What happens during the employee termination process?"
  {
  }

  /** One example in the system prompt, numbered from 1. */
  function ExampleBlock(i: nat, example: Example): string {
    ExampleQuestion(i, example.question) + ExampleAnswer(i, example.answer)
  }

  function ExampleQuestion(i: nat, question: string): string {
    "Example Question " + NatToString(i) + ": " + question + "\n\n"
  }

  function ExampleAnswer(i: nat, answer: string): string {
    "Example Answer " + NatToString(i) + ": " + answer + "\n\n"
  }

  /** `generate_few_shot_prompt`'s system prompt: the opening, every example, the closing. */
  function FewShotSystem(t: Texts): string {
    t.opening + Blocks(ExampleBlock, t.examples) + t.closing
  }

  function QuestionLine(question: string): string {
    QuestionLabel() + question + "\n\nContext Information: "
  }

  function QuestionLabel(): string {
    "New Question: "
  }

  /** `generate_few_shot_prompt`'s user prompt: the question, then the baseline answer. */
  function FewShotUser(t: Texts, question: string, baseline: string): string {
    QuestionLine(question) + baseline + t.request
  }

  function FewShotCall(t: Texts, question: string, baseline: string): ClientCall {
    Completion(FewShotSystem(t), FewShotUser(t, question, baseline), FewShotTemperature, FewShotMaxTokens)
  }

  /** Each example shows its question and then its answer, both under its number. */
  lemma ExampleBlockSpec(i: nat, example: Example)
    ensures var block := ExampleBlock(i, example);
            && ExampleQuestion(i, example.question) <= block
            && OccursAt(block, ExampleAnswer(i, example.answer), |ExampleQuestion(i, example.question)|)
    ensures Contains(ExampleQuestion(i, example.question), example.question)
    ensures Contains(ExampleAnswer(i, example.answer), example.answer)
  {
    var q, a := ExampleQuestion(i, example.question), ExampleAnswer(i, example.answer);
    StartsWith(q, a);
    assert (q + a)[|q|..|q| + |a|] == a;
    ContainsConcat("Example Question " + NatToString(i) + ": ", example.question, "\n\n");
    ContainsConcat("Example Answer " + NatToString(i) + ": ", example.answer, "\n\n");
  }

  /** The system prompt opens with the fixed opening, shows every example in order, numbered
      from 1, and ends with the fixed closing. */
  lemma FewShotSystemSpec(t: Texts)
    ensures var system := FewShotSystem(t);
            && t.opening <= system
            && BlocksAt(system, |t.opening|, ExampleBlock, t.examples)
            && OccursAt(system, t.closing, |system| - |t.closing|)
  {
    Framed(t.opening, ExampleBlock, t.examples, t.closing);
  }

  /** The user prompt shows the question right after "New Question: ", and the baseline answer
      right after the question's line, before the closing request. */
  lemma FewShotUserSpec(t: Texts, question: string, baseline: string)
    ensures var user := FewShotUser(t, question, baseline);
            && QuestionLine(question) <= user
            && OccursAt(user, question, |QuestionLabel()|)
            && OccursAt(user, baseline, |QuestionLine(question)|)
  {
    var line, user := QuestionLine(question), FewShotUser(t, question, baseline);
    StartsWith(line, baseline + t.request);
    assert user == line + baseline + t.request;
    assert user[|line|..|line| + |baseline|] == baseline;
    var lead := QuestionLabel();
    assert line[|lead|..|lead| + |question|] == question;
  }

  /** The `try` block of `query`: the baseline answer, then the few-shot completion. */
  function Attempt(t: Texts, question: string, replies: seq<Reply<string>>): ClientRun<string> {
    var ask := [AskBaseline(question)];
    match Nth(replies, 0)
    case Err(e) => ClientRun(ask, Err(e))
    case Ok(baseline) => ClientRun(ask + [FewShotCall(t, question, baseline)], Nth(replies, 1))
  }

  /** `query(question)`. */
  function Run(t: Texts, question: string, replies: seq<Reply<string>>): ClientRun<string> {
    WithFallback(question, Attempt(t, question, replies), replies)
  }

  /** When nothing raises, `query` asks the baseline once and hands its reply, whatever it says,
      to the few-shot completion, whose reply is the answer. */
  lemma RunSucceeds(t: Texts, question: string, replies: seq<Reply<string>>)
    requires Attempt(t, question, replies).result.Ok?
    ensures var run := Run(t, question, replies);
            && Nth(replies, 0).Ok?
            && run.calls == [AskBaseline(question), FewShotCall(t, question, Nth(replies, 0).value)]
            && run.result == Nth(replies, 1)
  {
  }

  /** When either step raises, `query` asks the baseline once more, with the same question,
      and answers with that reply. */
  lemma RunFallsBack(t: Texts, question: string, replies: seq<Reply<string>>)
    requires Attempt(t, question, replies).result.Err?
    ensures var attempt := Attempt(t, question, replies);
            var run := Run(t, question, replies);
            && 1 <= |attempt.calls| <= 2 && attempt.calls[0] == AskBaseline(question)
            && run.calls == attempt.calls + [AskBaseline(question)]
            && run.result == Nth(replies, |attempt.calls|)
  {
  }

  /** `FewShotRAG`. */
  class FewShotRag {
    const client: Client
    const name: string
    const t: Texts

    /** The variant's texts are the fixed ones, `Fixed`, which hold the three examples. */
    constructor (client: Client)
      ensures this.client == client && name == Name && t == Fixed
      ensures |t.examples| == 3
    {
      this.client := client;
      name := Name;
      t := Fixed;
      ThreeExamples();
    }

    method GenerateFewShotPrompt(question: string, baseline: string) returns (r: Reply<string>)
      modifies client
      ensures client.log == old(client.log) + [FewShotCall(t, question, baseline)]
      ensures client.script == Drop(old(client.script), 1)
      ensures r == Nth(old(client.script), 0)
    {
      var examples := BuildBlocks(ExampleBlock, t.examples);
      var system := t.opening + examples + t.closing;
      var user := QuestionLine(question) + baseline + t.request;
      r := client.Call(Completion(system, user, FewShotTemperature, FewShotMaxTokens));
    }

    /** The `try` block. */
    method TryQuery(question: string) returns (r: Reply<string>)
      modifies client
      ensures var run := Attempt(t, question, old(client.script));
              && r == run.result
              && client.log == old(client.log) + run.calls
              && client.script == Drop(old(client.script), |run.calls|)
    {
      ghost var script0 := client.script;
      var baseline := client.Call(AskBaseline(question));
      if baseline.Err? {
        return Err(baseline.error);
      }
      r := GenerateFewShotPrompt(question, baseline.value);
      DropDrop(script0, 1, 1);
    }

    method Query(question: string) returns (r: Reply<string>)
      modifies client
      ensures var run := Run(t, question, old(client.script));
              && r == run.result
              && client.log == old(client.log) + run.calls
              && client.script == Drop(old(client.script), |run.calls|)
    {
      ghost var script0, log0 := client.script, client.log;
      r := TryQuery(question);
      ghost var attempt := Attempt(t, question, script0);
      if r.Err? {
        r := client.Call(AskBaseline(question));
        DropDrop(script0, |attempt.calls|, 1);
        Appended(log0, attempt.calls, [AskBaseline(question)]);
      }
    }
  }
}
