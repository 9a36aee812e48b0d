/** Rendering of the fetched conversation history into the prompt's context:
    newest-first messages are reversed into chronological order and each
    becomes one `Model: …` or `User: …` line. */
module History {
  import opened JsValues
  import opened Strings

  /** One entry of `conversations.history`'s `messages`: the fields read here. */
  datatype Message = Message(botId: Option<string>, text: Option<string>)

  /** The fetch asks for at most this many messages. */
  const HistoryLimit: nat := 10

  const ModelTag: string := "Model: "
  const UserTag: string := "User: "

  /** A message counts as the bot's own when its `bot_id` is truthy. */
  predicate FromBot(m: Message) {
    Truthy(m.botId)
  }

  /** The bot's messages are tagged `Model: `, all others `User: `; the text
      follows the tag. */
  function RenderLine(m: Message): (line: string)
    ensures FromBot(m) ==> |line| >= |ModelTag| && line[..|ModelTag|] == ModelTag && line[|ModelTag|..] == Show(m.text)
    ensures !FromBot(m) ==> |line| >= |UserTag| && line[..|UserTag|] == UserTag && line[|UserTag|..] == Show(m.text)
  {
    (if FromBot(m) then ModelTag else UserTag) + Show(m.text)
  }

  /** Reversal: element i of the result is element |xs|-1-i of the input. */
  function Reverse<T>(xs: seq<T>): (r: seq<T>)
    ensures |r| == |xs|
    ensures forall i :: 0 <= i < |xs| ==> r[i] == xs[|xs| - 1 - i]
  {
    if xs == [] then [] else Reverse(xs[1..]) + [xs[0]]
  }

  /** One rendered line per message, in the same order. */
  function RenderLines(ms: seq<Message>): (lines: seq<string>)
    ensures |lines| == |ms|
    ensures forall i :: 0 <= i < |ms| ==> lines[i] == RenderLine(ms[i])
  {
    if ms == [] then [] else [RenderLine(ms[0])] + RenderLines(ms[1..])
  }

  /** The lines of the rendered history, oldest message first. */
  function ContextLines(messages: Option<seq<Message>>): (lines: seq<string>)
    ensures var ms := messages.GetOr([]);
            |lines| == |ms|
            && forall i :: 0 <= i < |ms| ==> lines[i] == RenderLine(ms[|ms| - 1 - i])
  {
    RenderLines(Reverse(messages.GetOr([])))
  }

  /** The rendered history: the lines of `ContextLines`, separated by line
      breaks. */
  function Render(messages: Option<seq<Message>>): (context: string)
    ensures messages.GetOr([]) == [] ==> context == ""
  {
    Join(ContextLines(messages), '\n')
  }

  /** Reading a line back: which side spoke, and the text. */
  function ParseLine(line: string): Option<(bool, string)> {
    if |line| >= |ModelTag| && line[..|ModelTag|] == ModelTag then Some((true, line[|ModelTag|..]))
    else if |line| >= |UserTag| && line[..|UserTag|] == UserTag then Some((false, line[|UserTag|..]))
    else None
  }

  /** Each line carries the right tag: reading it back gives whether the
      message came from the bot and its text. */
  lemma RenderLineParses(m: Message)
    ensures ParseLine(RenderLine(m)) == Some((FromBot(m), Show(m.text)))
  {
    var line := RenderLine(m);
    if FromBot(m) {
      assert line[..|ModelTag|] == ModelTag;
      assert line[|ModelTag|..] == Show(m.text);
    } else {
      assert !(|line| >= |ModelTag| && line[..|ModelTag|] == ModelTag) by {
        assert line[0] == 'U' && ModelTag[0] == 'M';
      }
      assert line[..|UserTag|] == UserTag;
      assert line[|UserTag|..] == Show(m.text);
    }
  }

  /** No fetched messages, or none at all, render as the empty string. */
  lemma RenderEmpty()
    ensures Render(None) == "" && Render(Some([])) == ""
  {
  }

  predicate SingleLine(s: string) {
    '\n' !in s
  }

  /** One line per message: when no message text contains a line break, the
      rendered history splits back into exactly the lines of the messages,
      in chronological order (the reverse of the fetched order). */
  lemma RenderSplitsIntoLines(ms: seq<Message>)
    requires ms != []
    requires forall i :: 0 <= i < |ms| ==> SingleLine(Show(ms[i].text))
    ensures var lines := Split(Render(Some(ms)), '\n');
            |lines| == |ms|
            && forall i :: 0 <= i < |ms| ==> lines[i] == RenderLine(ms[|ms| - 1 - i])
  {
    RenderSplitsIntoContextLines(ms);
  }

  lemma RenderSplitsIntoContextLines(ms: seq<Message>)
    requires ms != []
    requires forall i :: 0 <= i < |ms| ==> SingleLine(Show(ms[i].text))
    ensures Split(Render(Some(ms)), '\n') == ContextLines(Some(ms))
  {
    var lines := ContextLines(Some(ms));
    forall i | 0 <= i < |lines| ensures '\n' !in lines[i] {
      RenderLineSingle(ms[|ms| - 1 - i]);
    }
    SplitJoin(lines, '\n');
  }

  lemma RenderLineSingle(m: Message)
    requires SingleLine(Show(m.text))
    ensures SingleLine(RenderLine(m))
  {
    var tag := if FromBot(m) then ModelTag else UserTag;
    assert RenderLine(m) == tag + Show(m.text);
    assert '\n' !in tag;
  }
}
