/** The code-REPL orchestrator of examples/research/repl.py: the messages
    and execution records it handles, the helpers that format execution
    results, the `execute_code` loop over a persistent sandbox session, the
    question recovery of `final_answer`, and the three-node graph that
    `run_repl_graph` wires together. The language model and the sandbox's
    interpreter are oracles: functions passed in as parameters. */
module Repl {
  import opened Wrappers
  import opened Text
  import Fence

  /** `message.type`: "human", "ai" or "tool". */
  datatype Role = Human | Ai | ToolRole

  /** A textual or chart artifact of one execution. A missing `text` and an
      empty one are both false in the source's `if result.text`. */
  datatype ExecResult = ExecResult(text: Option<string>, chart: Option<string>)

  datatype ExecError = ExecError(traceback: string)

  /** What the sandbox returns for one code block. */
  datatype Execution = Execution(stdout: seq<string>, results: seq<ExecResult>, error: Option<ExecError>)

  /** A conversation message; `executions` stands for the `"executions"`
      entry of `additional_kwargs`, absent on every message but the ones
      `execute_code` produces. */
  datatype Message = Message(role: Role, content: string, executions: Option<seq<Execution>>)

  // ---------------------------------------------------------------------
  // Formatting the results of one execution
  // ---------------------------------------------------------------------

  predicate HasText(r: ExecResult)
  {
    r.text.Some? && r.text.value != ""
  }

  /** The non-empty texts of `rs`, in order. */
  function Texts(rs: seq<ExecResult>): (ts: seq<string>)
    ensures forall i :: 0 <= i < |ts| ==> ts[i] != ""
    ensures ts == [] <==> forall i :: 0 <= i < |rs| ==> !HasText(rs[i])
  {
    if rs == [] then []
    else (if HasText(rs[0]) then [rs[0].text.value] else []) + Texts(rs[1..])
  }

  lemma {:induction false} TextsAppend(a: seq<ExecResult>, b: seq<ExecResult>)
    ensures Texts(a + b) == Texts(a) + Texts(b)
  {
    if a == [] {
      assert a + b == b;
    } else {
      var h := if HasText(a[0]) then [a[0].text.value] else [];
      assert (a + b)[0] == a[0] && (a + b)[1..] == a[1..] + b;
      assert Texts(a + b) == h + Texts(a[1..] + b);
      TextsAppend(a[1..], b);
      assert Texts(a) == h + Texts(a[1..]);
    }
  }

  /** Appending one result appends its text exactly when it has one. With
      `Texts([]) == []` this fixes every kept string: it is a result's own
      `text`, in the order of the results. */
  lemma TextsSnoc(rs: seq<ExecResult>, r: ExecResult)
    ensures Texts(rs + [r]) == Texts(rs) + (if HasText(r) then [r.text.value] else [])
  {
    TextsAppend(rs, [r]);
    assert [r][1..] == [];
  }

  /** `extract_text_from_results`: the non-empty texts joined by newlines;
      empty exactly when no result has a non-empty text. */
  function ExtractText(rs: seq<ExecResult>): (r: string)
    ensures r == "" <==> forall i :: 0 <= i < |rs| ==> !HasText(rs[i])
  {
    JoinOfNonEmptyParts(Texts(rs), "\n");
    Join(Texts(rs), "\n")
  }

  /** The texts of a longer list are those of its two parts, in order,
      with one newline between them when both have some. */
  lemma ExtractTextAppend(a: seq<ExecResult>, b: seq<ExecResult>)
    ensures ExtractText(a + b) ==
              if ExtractText(a) == "" then ExtractText(b)
              else if ExtractText(b) == "" then ExtractText(a)
              else ExtractText(a) + "\n" + ExtractText(b)
  {
    TextsAppend(a, b);
    JoinAppend(Texts(a), Texts(b), "\n");
  }

  /** Appending one result adds its text after a newline when both sides
      have text; with `ExtractText([]) == ""` this determines the value. */
  lemma ExtractTextSnoc(rs: seq<ExecResult>, r: ExecResult)
    ensures ExtractText(rs + [r]) ==
              if !HasText(r) then ExtractText(rs)
              else if ExtractText(rs) == "" then r.text.value
              else ExtractText(rs) + "\n" + r.text.value
  {
    ExtractTextAppend(rs, [r]);
    assert Texts([r]) == (if HasText(r) then [r.text.value] else []) by {
      assert [r][1..] == [];
    }
    if HasText(r) {
      assert Join([r.text.value], "\n") == r.text.value;
    }
  }

  /** The fixed line that stands for a chart. */
  const ChartNote: string := "*В результате выполнения кода был сгенерирован график*"

  /** One ChartNote per result that has a chart. */
  function ChartNotes(rs: seq<ExecResult>): (ns: seq<string>)
    ensures forall i :: 0 <= i < |ns| ==> ns[i] == ChartNote
  {
    if rs == [] then []
    else (if rs[0].chart.Some? then [ChartNote] else []) + ChartNotes(rs[1..])
  }

  /** The positions of the results that have a chart. */
  ghost function ChartIndices(rs: seq<ExecResult>): set<int>
  {
    set i | 0 <= i < |rs| && rs[i].chart.Some?
  }

  lemma {:induction false} ChartNotesAppend(a: seq<ExecResult>, b: seq<ExecResult>)
    ensures ChartNotes(a + b) == ChartNotes(a) + ChartNotes(b)
  {
    if a == [] {
      assert a + b == b;
    } else {
      assert (a + b)[0] == a[0] && (a + b)[1..] == a[1..] + b;
      ChartNotesAppend(a[1..], b);
    }
  }

  /** Appending one result adds one note exactly when it has a chart. */
  lemma ChartNotesSnoc(rs: seq<ExecResult>, r: ExecResult)
    ensures ChartNotes(rs + [r]) == ChartNotes(rs) + (if r.chart.Some? then [ChartNote] else [])
  {
    ChartNotesAppend(rs, [r]);
    assert [r][1..] == [];
  }

  /** Exactly one note per result that has a chart. */
  lemma {:induction false} ChartNotesCount(rs: seq<ExecResult>)
    ensures |ChartNotes(rs)| == |ChartIndices(rs)|
  {
    if rs != [] {
      var init := rs[..|rs| - 1];
      var r := rs[|rs| - 1];
      assert init + [r] == rs;
      ChartNotesCount(init);
      ChartNotesSnoc(init, r);
      var extra: set<int> := if r.chart.Some? then {|init|} else {};
      assert ChartIndices(rs) == ChartIndices(init) + extra;
      assert |init| !in ChartIndices(init);
    }
  }

  /** `extract_images_from_results`: one ChartNote per chart, joined by
      newlines; empty exactly when there is no chart. */
  function ExtractImages(rs: seq<ExecResult>): (r: string)
    ensures r == "" <==> forall i :: 0 <= i < |rs| ==> rs[i].chart.None?
  {
    ChartNotesEmpty(rs);
    JoinOfNonEmptyParts(ChartNotes(rs), "\n");
    Join(ChartNotes(rs), "\n")
  }

  /** Appending one result adds a newline and one ChartNote exactly when it
      has a chart; with `ExtractImages([]) == ""` this fixes one line per
      chart. */
  lemma ExtractImagesSnoc(rs: seq<ExecResult>, r: ExecResult)
    ensures ExtractImages(rs + [r]) ==
              if r.chart.None? then ExtractImages(rs)
              else if ExtractImages(rs) == "" then ChartNote
              else ExtractImages(rs) + "\n" + ChartNote
  {
    ChartNotesSnoc(rs, r);
    JoinAppend(ChartNotes(rs), if r.chart.Some? then [ChartNote] else [], "\n");
    assert Join([ChartNote], "\n") == ChartNote;
  }

  lemma {:induction false} ChartNotesEmpty(rs: seq<ExecResult>)
    ensures ChartNotes(rs) == [] <==> forall i :: 0 <= i < |rs| ==> rs[i].chart.None?
  {
    if rs != [] {
      ChartNotesEmpty(rs[1..]);
      assert forall i :: 0 < i < |rs| ==> rs[i] == rs[1..][i - 1];
    }
  }

  /** Chart data never reaches the text: two result lists that have charts
      at the same places give the same text, whatever the charts and the
      texts hold. */
  lemma {:induction false} ImagesIgnoreContent(rs: seq<ExecResult>, qs: seq<ExecResult>)
    requires |rs| == |qs|
    requires forall i :: 0 <= i < |rs| ==> rs[i].chart.Some? == qs[i].chart.Some?
    ensures ExtractImages(rs) == ExtractImages(qs)
  {
    ChartNotesSame(rs, qs);
  }

  lemma {:induction false} ChartNotesSame(rs: seq<ExecResult>, qs: seq<ExecResult>)
    requires |rs| == |qs|
    requires forall i :: 0 <= i < |rs| ==> rs[i].chart.Some? == qs[i].chart.Some?
    ensures ChartNotes(rs) == ChartNotes(qs)
  {
    if rs != [] {
      ChartNotesSame(rs[1..], qs[1..]);
    }
  }

  // ---------------------------------------------------------------------
  // Reports of one executed block
  // ---------------------------------------------------------------------

  const SuccessHead: string := "Результат выполнения блока "
  const ErrorHead: string := "В результате выполнения блока "

  /** The report of a block that ran without error: its index, its
      standard output lines, its texts and its chart notes. */
  function SuccessReport(index: nat, e: Execution): string
  {
    SuccessHead + (NatToString(index) + SuccessTail(e))
  }

  function SuccessTail(e: Execution): string
  {
    ":\n```\n" + Join(e.stdout, "\n") + " " + ExtractText(e.results) + " " + ExtractImages(e.results) + "\n```"
  }

  /** The report of a block that failed: its index, the traceback and the
      request to fix the error. */
  function ErrorReport(index: nat, traceback: string): string
  {
    ErrorHead + (NatToString(index) + ErrorTail(traceback))
  }

  function ErrorTail(traceback: string): string
  {
    " возникла ошибка:\n```\n" + traceback + "\n```\nИсправь ошибку"
  }

  function Report(index: nat, e: Execution): string
  {
    match e.error
    case Some(err) => ErrorReport(index, err.traceback)
    case None => SuccessReport(index, e)
  }

  /** The first letter of a report tells its kind. */
  lemma ReportHead(i: nat, e: Execution)
    ensures |Report(i, e)| > 0 && Report(i, e)[0] == if e.error.Some? then 'В' else 'Р'
  {
  }

  lemma PrefixCancel(p: string, u: string, v: string)
    requires p + u == p + v
    ensures u == v
  {
    assert u == (p + u)[|p|..];
    assert v == (p + v)[|p|..];
  }

  /** A report tells which kind it is and which block it is about: equal
      reports come from the same index and the same outcome kind. */
  lemma ReportNamesIndex(i: nat, j: nat, e: Execution, f: Execution)
    requires Report(i, e) == Report(j, f)
    ensures i == j && e.error.Some? == f.error.Some?
  {
    if e.error.Some? && f.error.Some? {
      PrefixCancel(ErrorHead, NatToString(i) + ErrorTail(e.error.value.traceback),
                   NatToString(j) + ErrorTail(f.error.value.traceback));
      NumberThenNonDigit(i, j, ErrorTail(e.error.value.traceback), ErrorTail(f.error.value.traceback));
    } else if e.error.None? && f.error.None? {
      PrefixCancel(SuccessHead, NatToString(i) + SuccessTail(e), NatToString(j) + SuccessTail(f));
      NumberThenNonDigit(i, j, SuccessTail(e), SuccessTail(f));
    } else {
      ReportHead(i, e);
      ReportHead(j, f);
      assert false;
    }
  }

  // ---------------------------------------------------------------------
  // execute_code
  // ---------------------------------------------------------------------

  /** What the sandbox's interpreter does with `code` after the session has
      already run `history`: an oracle, since the interpreter is not part
      of this model. */
  type Interpreter = (seq<string>, string) -> Execution

  /** The executions of `blocks[k..]`, run in order in a session that has
      run `history` and the blocks before `k`, up to and including the
      first that fails. */
  function RunFrom(behaviour: Interpreter, history: seq<string>, blocks: seq<string>, k: nat): (r: seq<Execution>)
    requires k <= |blocks|
    decreases |blocks| - k
    ensures |r| <= |blocks| - k
  {
    if k == |blocks| then []
    else
      var e := behaviour(history + blocks[..k], blocks[k]);
      if e.error.Some? then [e] else [e] + RunFrom(behaviour, history, blocks, k + 1)
  }

  /** The executions of one turn's blocks. */
  function Run(behaviour: Interpreter, history: seq<string>, blocks: seq<string>): (r: seq<Execution>)
    ensures |r| <= |blocks|
  {
    RunFrom(behaviour, history, blocks, 0)
  }

  lemma {:induction false} RunFromSpec(behaviour: Interpreter, history: seq<string>, blocks: seq<string>, k: nat)
    requires k <= |blocks|
    ensures var r := RunFrom(behaviour, history, blocks, k);
            && (k < |blocks| ==> |r| > 0)
            && (forall i :: 0 <= i < |r| ==> r[i] == behaviour(history + blocks[..k + i], blocks[k + i]))
            && (forall i :: 0 <= i < |r| - 1 ==> r[i].error.None?)
            && (|r| < |blocks| - k ==> r[|r| - 1].error.Some?)
    decreases |blocks| - k
  {
    if k < |blocks| && behaviour(history + blocks[..k], blocks[k]).error.None? {
      RunFromSpec(behaviour, history, blocks, k + 1);
    }
  }

  /** What Run promises: each block sees every earlier block of the turn;
      every execution but the last succeeded; fewer executions than blocks
      means the last one failed. */
  lemma RunSpec(behaviour: Interpreter, history: seq<string>, blocks: seq<string>)
    ensures var r := Run(behaviour, history, blocks);
            && (blocks != [] ==> |r| > 0)
            && (forall i :: 0 <= i < |r| ==> r[i] == behaviour(history + blocks[..i], blocks[i]))
            && (forall i :: 0 <= i < |r| - 1 ==> r[i].error.None?)
            && (|r| < |blocks| ==> r[|r| - 1].error.Some?)
  {
    RunFromSpec(behaviour, history, blocks, 0);
  }

  /** The number of executions is fixed by the first failing block: with
      no failure every block runs, with the first failure at index k
      exactly k + 1 blocks run. */
  lemma RunStopsAtFirstFailure(behaviour: Interpreter, history: seq<string>, blocks: seq<string>, k: nat)
    requires k < |Run(behaviour, history, blocks)|
    requires Run(behaviour, history, blocks)[k].error.Some?
    ensures |Run(behaviour, history, blocks)| == k + 1
  {
    RunSpec(behaviour, history, blocks);
  }

  /** The contract of Run determines its result: any list of executions
      that satisfies it is Run's. */
  lemma RunUnique(behaviour: Interpreter, history: seq<string>, blocks: seq<string>, r: seq<Execution>)
    requires |r| <= |blocks| && (blocks != [] ==> |r| > 0)
    requires forall i :: 0 <= i < |r| ==> r[i] == behaviour(history + blocks[..i], blocks[i])
    requires forall i :: 0 <= i < |r| - 1 ==> r[i].error.None?
    requires |r| < |blocks| ==> r[|r| - 1].error.Some?
    ensures r == Run(behaviour, history, blocks)
  {
    var q := Run(behaviour, history, blocks);
    RunSpec(behaviour, history, blocks);
    assert |r| == |q|;
  }

  /** The reports of a turn, block index by block index. */
  function Reports(executions: seq<Execution>): (rs: seq<string>)
    ensures |rs| == |executions|
  {
    seq(|executions|, i requires 0 <= i < |executions| => Report(i, executions[i]))
  }

  lemma ReportsSnoc(executions: seq<Execution>, e: Execution)
    ensures e.error.Some? ==>
              Reports(executions + [e]) == Reports(executions) + [ErrorReport(|executions|, e.error.value.traceback)]
    ensures e.error.None? ==>
              Reports(executions + [e]) == Reports(executions) + [SuccessReport(|executions|, e)]
  {
    ReportsAppend(executions, e);
  }

  /** Appending an execution appends its report. */
  lemma ReportsAppend(executions: seq<Execution>, e: Execution)
    ensures Reports(executions + [e]) == Reports(executions) + [Report(|executions|, e)]
  {
    var a, b := Reports(executions + [e]), Reports(executions) + [Report(|executions|, e)];
    forall i | 0 <= i < |a| ensures a[i] == b[i] {
      if i < |executions| {
        assert (executions + [e])[i] == executions[i];
      }
    }
    assert a == b;
  }

  /** The message `execute_code` returns: a human message whose content is
      the reports joined by newlines and whose metadata is the executions. */
  function ExecutionReply(executions: seq<Execution>): Message
  {
    Message(Human, Join(Reports(executions), "\n"), Some(executions))
  }

  /** Every report but the last is a success report; the last is an error
      report exactly when some block failed, and then its traceback is
      the failing block's. */
  lemma ReplyReports(behaviour: Interpreter, history: seq<string>, blocks: seq<string>)
    ensures var r := Run(behaviour, history, blocks);
            && (forall i :: 0 <= i < |r| - 1 ==> Reports(r)[i] == SuccessReport(i, r[i]))
            && ((exists i :: 0 <= i < |r| && r[i].error.Some?) <==> (|r| > 0 && r[|r| - 1].error.Some?))
            && (|r| > 0 && r[|r| - 1].error.Some? ==>
                  Reports(r)[|r| - 1] == ErrorReport(|r| - 1, r[|r| - 1].error.value.traceback))
            && (|r| > 0 && r[|r| - 1].error.None? ==>
                  Reports(r)[|r| - 1] == SuccessReport(|r| - 1, r[|r| - 1]))
  {
    RunSpec(behaviour, history, blocks);
  }

  /** The sandbox session: it keeps the code it has run, which is what makes
      later blocks see the variables of earlier ones. */
  class Sandbox {
    const behaviour: Interpreter
    var history: seq<string>

    constructor (behaviour: Interpreter)
      ensures this.behaviour == behaviour && history == []
    {
      this.behaviour := behaviour;
      history := [];
    }

    /** `sandbox.run_code(code)`. */
    method RunCode(code: string) returns (e: Execution)
      modifies this
      ensures e == behaviour(old(history), code)
      ensures history == old(history) + [code]
    {
      e := behaviour(history, code);
      history := history + [code];
    }
  }

  /** `execute_code`: runs the blocks of the last message in order, stops
      after the first failure, and answers with one message carrying every
      report and every execution. The session has run exactly the blocks
      that have an execution, so no block after a failure ever runs. */
  method ExecuteCode(sandbox: Sandbox, messages: seq<Message>) returns (reply: Message)
    requires |messages| > 0
    modifies sandbox
    ensures var blocks := Fence.Blocks(messages[|messages| - 1].content);
            var executions := Run(sandbox.behaviour, old(sandbox.history), blocks);
            && reply == ExecutionReply(executions)
            && sandbox.history == old(sandbox.history) + blocks[..|executions|]
  {
    var blocks := Fence.Blocks(messages[|messages| - 1].content);
    var executions, results := RunBlocks(sandbox, blocks);
    reply := Message(Human, Join(results, "\n"), Some(executions));
  }

  /** The `for` loop of `execute_code`: one execution and one report per
      block, leaving the loop after the first failure. */
  method RunBlocks(sandbox: Sandbox, blocks: seq<string>) returns (executions: seq<Execution>, results: seq<string>)
    modifies sandbox
    ensures executions == Run(sandbox.behaviour, old(sandbox.history), blocks)
    ensures results == Reports(executions)
    ensures sandbox.history == old(sandbox.history) + blocks[..|executions|]
  {
    ghost var start := sandbox.history;
    results := [];
    executions := [];
    var index := 0;
    while index < |blocks|
      invariant index <= |blocks| && |executions| == index == |results|
      invariant sandbox.history == start + blocks[..index]
      invariant Run(sandbox.behaviour, start, blocks) ==
                executions + RunFrom(sandbox.behaviour, start, blocks, index)
      invariant results == Reports(executions)
    {
      var execution := sandbox.RunCode(blocks[index]);
      RunStep(sandbox.behaviour, start, blocks, index, executions, execution);
      ReportsSnoc(executions, execution);
      executions := executions + [execution];
      if execution.error.Some? {
        results := results + [ErrorReport(index, execution.error.value.traceback)];
        break;
      }
      results := results + [SuccessReport(index, execution)];
      index := index + 1;
    }
    assert executions == Run(sandbox.behaviour, start, blocks);
  }

  /** One turn of the loop of RunBlocks: running block `k` in a session
      that has run the blocks before it either ends the turn's executions
      (on an error) or leaves the rest to RunFrom at `k + 1`. */
  lemma RunStep(behaviour: Interpreter, history: seq<string>, blocks: seq<string>, k: nat,
                done: seq<Execution>, e: Execution)
    requires k < |blocks|
    requires Run(behaviour, history, blocks) == done + RunFrom(behaviour, history, blocks, k)
    requires e == behaviour(history + blocks[..k], blocks[k])
    ensures history + blocks[..k] + [blocks[k]] == history + blocks[..k + 1]
    ensures e.error.Some? ==> Run(behaviour, history, blocks) == done + [e]
    ensures e.error.None? ==>
              Run(behaviour, history, blocks) == (done + [e]) + RunFrom(behaviour, history, blocks, k + 1)
  {
    assert blocks[..k + 1] == blocks[..k] + [blocks[k]];
  }

  /** With no block in the last message, the reply is empty and has no
      executions. */
  lemma NoBlocksEmptyReply(behaviour: Interpreter, history: seq<string>)
    ensures ExecutionReply(Run(behaviour, history, [])) == Message(Human, "", Some([]))
  {
  }

  // ---------------------------------------------------------------------
  // final_answer
  // ---------------------------------------------------------------------

  /** A message that can hold the user's question: human, and not a
      reply of `execute_code`. */
  predicate IsQuestion(m: Message)
  {
    m.role == Human && m.executions.None?
  }

  /** The first question at or after index `k`. */
  function FirstQuestionFrom(messages: seq<Message>, k: nat): (r: Option<nat>)
    decreases |messages| - k
    ensures r.Some? ==> k <= r.value < |messages| && IsQuestion(messages[r.value])
    ensures r.Some? ==> forall j :: k <= j < r.value ==> !IsQuestion(messages[j])
    ensures r.None? ==> forall j :: k <= j < |messages| ==> !IsQuestion(messages[j])
  {
    if k >= |messages| then None
    else if IsQuestion(messages[k]) then Some(k)
    else FirstQuestionFrom(messages, k + 1)
  }

  /** The question `final_answer` recovers: the content of the EARLIEST
      question of the history, or "" when there is none. */
  function Question(messages: seq<Message>): string
  {
    match FirstQuestionFrom(messages, 0)
    case Some(i) => messages[i].content
    case None => ""
  }

  /** The loop of `final_answer`: it walks the history backwards and
      overwrites `question` at every question it meets, so the last one
      it meets, the earliest in the history, wins. */
  method SelectQuestion(messages: seq<Message>) returns (question: string)
    ensures (exists i :: 0 <= i < |messages| && IsQuestion(messages[i]) && question == messages[i].content
                         && forall j :: 0 <= j < i ==> !IsQuestion(messages[j]))
         || (question == "" && forall j :: 0 <= j < |messages| ==> !IsQuestion(messages[j]))
    ensures question == Question(messages)
  {
    question := "";
    var k := |messages|;
    while k > 0
      invariant 0 <= k <= |messages|
      invariant question == match FirstQuestionFrom(messages, k)
                            case Some(i) => messages[i].content
                            case None => ""
    {
      k := k - 1;
      if IsQuestion(messages[k]) {
        question := messages[k].content;
      }
    }
  }

  /** Appending messages after the question keeps it, and so does
      appending only non-questions, such as replies of `execute_code` and
      model turns. */
  lemma {:induction false} QuestionStable(messages: seq<Message>, tail: seq<Message>)
    requires (exists i :: 0 <= i < |messages| && IsQuestion(messages[i]))
          || (forall j :: 0 <= j < |tail| ==> !IsQuestion(tail[j]))
    ensures Question(messages + tail) == Question(messages)
  {
    var all := messages + tail;
    match FirstQuestionFrom(messages, 0)
    case Some(i) =>
      assert all[i] == messages[i];
      assert forall j :: 0 <= j < i ==> all[j] == messages[j];
      FirstQuestionIs(all, i);
    case None =>
      assert forall j :: 0 <= j < |all| ==> !IsQuestion(all[j]) by {
        forall j | 0 <= j < |all| ensures !IsQuestion(all[j]) {
          if j < |messages| {
            assert all[j] == messages[j];
          } else {
            assert all[j] == tail[j - |messages|];
          }
        }
      }
  }

  /** The first question is the one at `i` when no question comes before. */
  lemma FirstQuestionIs(messages: seq<Message>, i: nat)
    requires i < |messages| && IsQuestion(messages[i])
    requires forall j :: 0 <= j < i ==> !IsQuestion(messages[j])
    ensures FirstQuestionFrom(messages, 0) == Some(i)
  {
  }

  /** The earliest question wins over a later one, although the history is
      walked backwards: [human "Q1", ai, human "Q2"] recovers "Q1". */
  lemma EarliestQuestionWins(q1: string, answer: string, q2: string)
    ensures Question([Message(Human, q1, None), Message(Ai, answer, None), Message(Human, q2, None)]) == q1
  {
  }

  /** After many rounds of code, the original question is still found:
      [human "Q", ai, execution reply, ai, execution reply] recovers "Q". */
  lemma QuestionSurvivesRounds(q: string, a1: string, a2: string, e1: seq<Execution>, e2: seq<Execution>)
    ensures Question([Message(Human, q, None), Message(Ai, a1, None), ExecutionReply(e1),
                      Message(Ai, a2, None), ExecutionReply(e2)]) == q
  {
  }

  /** The extra human message `final_answer` appends to the history before
      asking the model once more. */
  function AnswerPrompt(question: string): Message
  {
    Message(Human, "Ответь на вопрос пользователя: \"" + question + "\", используя полученную информацию выше.", None)
  }

  /** `final_answer`: the model's reply to the whole history followed by the
      request to answer the recovered question. */
  method FinalAnswer(messages: seq<Message>, model: seq<Message> -> Message) returns (response: Message)
    ensures response == model(messages + [AnswerPrompt(Question(messages))])
  {
    var question := SelectQuestion(messages);
    response := model(messages + [AnswerPrompt(question)]);
  }

  // ---------------------------------------------------------------------
  // The graph of run_repl_graph
  // ---------------------------------------------------------------------

  datatype Node = Agent | Code | FinalAnswerNode

  /** Where control goes after a node: another node, or the end. */
  datatype Target = Goto(node: Node) | End

  const Entry: Node := Agent

  /** `should_continue`: to "code" when the last message holds a block,
      otherwise to "final_answer". */
  function ShouldContinue(messages: seq<Message>): Node
    requires |messages| > 0
  {
    if |Fence.Blocks(messages[|messages| - 1].content)| > 0 then Code else FinalAnswerNode
  }

  /** The transitions: agent routes by ShouldContinue, code always returns
      to agent, final_answer always ends. */
  function Successor(node: Node, messages: seq<Message>): Target
    requires |messages| > 0
  {
    match node
    case Agent => Goto(ShouldContinue(messages))
    case Code => Goto(Agent)
    case FinalAnswerNode => End
  }

  /** Routing reads only the last message: the agent goes to "code" exactly
      when the pattern can match somewhere in the last message. */
  lemma RoutingIff(messages: seq<Message>)
    requires |messages| > 0
    ensures ShouldContinue(messages) == Code <==> Fence.HasMatch(messages[|messages| - 1].content)
  {
    Fence.HasBlocksIff(messages[|messages| - 1].content);
  }

  /** The graph's shape: code is entered only from the agent and only with
      a block in the last message; the end is reached only from
      final_answer, which is entered only from the agent with no block. */
  lemma GraphShape(node: Node, messages: seq<Message>)
    requires |messages| > 0
    ensures Successor(node, messages) == Goto(Code) ==>
              node == Agent && Fence.HasMatch(messages[|messages| - 1].content)
    ensures Successor(node, messages) == Goto(FinalAnswerNode) ==>
              node == Agent && !Fence.HasMatch(messages[|messages| - 1].content)
    ensures Successor(node, messages) == End <==> node == FinalAnswerNode
    ensures Successor(node, messages) != Goto(Code) && Successor(node, messages) != Goto(FinalAnswerNode) ==>
              node != Agent
    ensures Successor(node, messages) == Goto(Entry) <==> node == Code
  {
    RoutingIff(messages);
  }
}
