/** The text posted back to the conversation: the generated answer, its
    fallback, and the error replies. */
module Answer {
  import opened JsValues

  /** The parts of a generation response the handler reads. */
  datatype Part = Part(text: Option<string>)
  datatype Content = Content(parts: Option<seq<Part>>)
  datatype Candidate = Candidate(content: Option<Content>)
  datatype Generation = Generation(candidates: Option<seq<Candidate>>)

  /** Posted when the response holds no usable text ("answer generation error"). */
  const Fallback: string := "回答生成エラー"
  /** Prefix of every error reply ("error: "). */
  const ErrorPrefix: string := "エラー: "
  /** Message of the error thrown on a non-success generation status. */
  const GenerationErrorPrefix: string := "Gemini API Error: "

  /** The optional chain down to the first candidate's first part's text:
      absent as soon as any link is missing or a list is empty. */
  function FirstText(data: Generation): (text: Option<string>)
    ensures forall t :: text == Some(t) <==> TextAtPath(data, t)
  {
    match data.candidates
    case None => None
    case Some(cs) =>
      if cs == [] then None
      else match cs[0].content
        case None => None
        case Some(c) =>
          match c.parts
          case None => None
          case Some(ps) => if ps == [] then None else ps[0].text
  }

  /** `t` is the text of the first part of the first candidate's content. */
  ghost predicate TextAtPath(data: Generation, t: string) {
    && data.candidates.Some? && |data.candidates.value| > 0
    && data.candidates.value[0].content.Some?
    && data.candidates.value[0].content.value.parts.Some?
    && |data.candidates.value[0].content.value.parts.value| > 0
    && data.candidates.value[0].content.value.parts.value[0].text == Some(t)
  }

  /** The answer to post: the first candidate's first text when
      it exists and is non-empty, the fallback otherwise; never empty. */
  function ExtractAnswer(data: Generation): (answer: string)
    ensures answer != ""
    ensures forall t :: TextAtPath(data, t) && t != "" ==> answer == t
    ensures (forall t :: TextAtPath(data, t) ==> t == "") ==> answer == Fallback
    ensures answer == Fallback || TextAtPath(data, answer)
  {
    var t := FirstText(data);
    if Truthy(t) then t.value else Fallback
  }

  /** The string form of a JavaScript `Error`: `Error.prototype.toString`
      gives the name alone for an empty message, else the name, a colon, a
      space and the message. */
  function ErrorString(message: string): (s: string)
    ensures message == "" ==> s == "Error"
    ensures message != "" ==> |s| == |"Error: "| + |message|
                              && s[..|"Error: "|] == "Error: " && s[|"Error: "|..] == message
  {
    if message == "" then "Error" else "Error: " + message
  }

  /** The reply posted for a caught error: the error prefix and the error's
      string form. */
  function ErrorReply(err: string): (reply: string)
    ensures |reply| == |ErrorPrefix| + |err|
    ensures reply[..|ErrorPrefix|] == ErrorPrefix && reply[|ErrorPrefix|..] == err
  {
    ErrorPrefix + err
  }

  /** The reply for a non-success generation status: the error prefix, then
      the thrown error's string form, which carries the response body. */
  function GenerationFailureReply(body: string): (reply: string)
    ensures reply == ErrorPrefix + "Error: " + GenerationErrorPrefix + body
  {
    ErrorReply(ErrorString(GenerationErrorPrefix + body))
  }

  /** No error reply can be mistaken for the fallback or for an empty answer. */
  lemma ErrorReplyNotAnswerFallback(err: string)
    ensures ErrorReply(err) != Fallback && ErrorReply(err) != ""
  {
    assert ErrorReply(err)[0] == 'エ' && Fallback[0] == '回';
  }
}
