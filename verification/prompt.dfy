/** The prompt sent to the generation API: a fixed template literal around
    the rendered history and the question. */
module Prompt {
  import opened JsValues
  import opened Strings

  /** The fixed instruction on the template's first non-empty line. */
  const Instruction: string := "あなたはアシスタントです。以下の履歴を元に質問に答えてください。"
  const HistoryMarker: string := "[履歴]"
  const QuestionMarker: string := "[質問]"

  /** Everything before the history: a line break, the instruction and the
      history marker, each on its own line. */
  function Header(): string {
    "\n" + Instruction + "\n" + HistoryMarker + "\n"
  }

  /** The template literal around the history and the question. */
  function Compose(context: string, question: Option<string>): string {
    Header() + context + "\n" + QuestionMarker + "\n" + Show(question) + "\n"
  }

  /** The prompt holds, in this order: the instruction, `[履歴]`, the
      history, `[質問]` and the question, each starting on a line of its own,
      and ends with a line break. */
  lemma ComposeLayout(context: string, question: Option<string>)
    ensures var p := Compose(context, question);
            var i, h := 1 + |Instruction|, 1 + |Instruction| + 1 + |HistoryMarker| + 1;
            var c, q := |context|, |Show(question)|;
            var m := h + c + 1 + |QuestionMarker| + 1;
            |p| == m + q + 1
            && p[0] == '\n' && p[1..i] == Instruction && p[i] == '\n'
            && p[i + 1..h - 1] == HistoryMarker && p[h - 1] == '\n'
            && p[h..h + c] == context
            && p[h + c] == '\n' && p[h + c + 1..m - 1] == QuestionMarker && p[m - 1] == '\n'
            && p[m..m + q] == Show(question)
            && p[m + q] == '\n'
  {
  }

  /** Read line by line, the prompt is: an empty line, the instruction,
      `[履歴]`, the lines of the history, `[質問]`, the question and a final
      empty line; this holds for any history when the question is one line. */
  lemma {:induction false} ComposeLines(context: string, question: Option<string>)
    requires '\n' !in Show(question)
    ensures Split(Compose(context, question), '\n')
         == ["", Instruction, HistoryMarker] + Split(context, '\n') + [QuestionMarker, Show(question), ""]
  {
    var head := ["", Instruction, HistoryMarker];
    var body := Split(context, '\n');
    var tail := [QuestionMarker, Show(question), ""];
    var all := head + body + tail;
    calc {
      Join(all, '\n');
    == { JoinAppend(head + body, tail, '\n'); JoinAppend(head, body, '\n'); }
      Join(head, '\n') + "\n" + Join(body, '\n') + "\n" + Join(tail, '\n');
    == { HeadJoin(); TailJoin(Show(question)); JoinSplit(context, '\n'); }
      Compose(context, question);
    }
    PartsSingleLine(head, body, tail);
    SplitJoin(all, '\n');
  }

  lemma HeadJoin()
    ensures Join(["", Instruction, HistoryMarker], '\n') == "\n" + Instruction + "\n" + HistoryMarker
  {
    var head := ["", Instruction, HistoryMarker];
    assert head[1..] == [Instruction, HistoryMarker] && head[1..][1..] == [HistoryMarker];
    assert Join([HistoryMarker], '\n') == HistoryMarker;
    assert Join([Instruction, HistoryMarker], '\n') == Instruction + "\n" + HistoryMarker;
    assert Join(head, '\n') == "" + "\n" + Join([Instruction, HistoryMarker], '\n');
    assert "" + "\n" + (Instruction + "\n" + HistoryMarker) == "\n" + Instruction + "\n" + HistoryMarker;
  }

  lemma TailJoin(q: string)
    ensures Join([QuestionMarker, q, ""], '\n') == QuestionMarker + "\n" + q + "\n"
  {
    var tail := [QuestionMarker, q, ""];
    assert tail[1..] == [q, ""] && tail[1..][1..] == [""];
    assert Join([""], '\n') == "";
    assert Join([q, ""], '\n') == q + "\n" + "";
    assert Join(tail, '\n') == QuestionMarker + "\n" + Join([q, ""], '\n');
    assert QuestionMarker + "\n" + (q + "\n" + "") == QuestionMarker + "\n" + q + "\n";
  }

  lemma PartsSingleLine(head: seq<string>, body: seq<string>, tail: seq<string>)
    requires forall i :: 0 <= i < |head| ==> '\n' !in head[i]
    requires forall i :: 0 <= i < |body| ==> '\n' !in body[i]
    requires forall i :: 0 <= i < |tail| ==> '\n' !in tail[i]
    ensures forall i :: 0 <= i < |head + body + tail| ==> '\n' !in (head + body + tail)[i]
  {
  }
}
