/** The background reply task started for an admitted mention: fetch the
    history, ask the generation API, post the answer, and turn any failure
    into an error reply. Outbound calls are recorded as a trace; what the
    network answers is an input. */
module Reply {
  import opened JsValues
  import opened History
  import opened Prompt
  import opened Answer

  /** One outbound call of the task. */
  datatype Call =
    | FetchHistory(channel: Option<string>, limit: nat)  // conversations.history
    | Generate(model: string, prompt: string)            // POST to the generation API
    | PostMessage(channel: Option<string>, text: string) // chat.postMessage

  /** What `conversations.history` gave back. */
  datatype HistoryResult = HistoryFetched(messages: Option<seq<Message>>) | HistoryFailed(error: string)

  /** What the generation request gave back: a thrown request, a non-success
      status with its body text, a success whose body is not JSON, or the
      parsed body. */
  datatype GenerationResult =
    | RequestFailed(error: string)
    | NotOk(body: string)
    | UnreadableBody(error: string)
    | Answered(data: Generation)

  /** What posting the answer gave back. */
  datatype PostResult = Delivered | PostFailed(error: string)

  /** The outcome of each outbound call, fixed by the environment. */
  datatype Network = Network(history: HistoryResult, generation: GenerationResult, post: PostResult)

  const ModelName: string := "gemini-2.5-flash"

  /** The call is a chat call to `channel`, or the generation request. */
  predicate StaysInChannel(call: Call, channel: Option<string>) {
    match call
    case FetchHistory(c, _) => c == channel
    case PostMessage(c, _) => c == channel
    case Generate(_, _) => true
  }

  /** The prompt built from the fetched messages and the question. */
  function PromptFor(messages: Option<seq<Message>>, question: Option<string>): string {
    Compose(Render(messages), question)
  }

  /** The posts that follow the generation request: the answer, or the
      error reply for whatever went wrong; one or two posts to the channel,
      none of them empty. */
  function Outcome(channel: Option<string>, generation: GenerationResult, post: PostResult): (posts: seq<Call>)
    ensures 1 <= |posts| <= 2
    ensures forall i :: 0 <= i < |posts| ==> posts[i].PostMessage? && posts[i].channel == channel && posts[i].text != ""
    ensures generation.RequestFailed? || generation.UnreadableBody?
            ==> posts == [PostMessage(channel, ErrorReply(generation.error))]
    ensures generation.NotOk? ==> posts == [PostMessage(channel, GenerationFailureReply(generation.body))]
    ensures generation.Answered?
            ==> posts[0] == PostMessage(channel, ExtractAnswer(generation.data))
                && (|posts| == 2 <==> post.PostFailed?)
                && (post.PostFailed? ==> posts[1] == PostMessage(channel, ErrorReply(post.error)))
  {
    match generation
    case RequestFailed(e) => [PostMessage(channel, ErrorReply(e))]
    case NotOk(body) => [PostMessage(channel, GenerationFailureReply(body))]
    case UnreadableBody(e) => [PostMessage(channel, ErrorReply(e))]
    case Answered(data) =>
      var answer := PostMessage(channel, ExtractAnswer(data));
      match post
      case Delivered => [answer]
      case PostFailed(e) => [answer, PostMessage(channel, ErrorReply(e))]
  }

  /** The calls the task makes, in order. It always starts by fetching the
      last ten messages of the channel, talks to no other channel, makes at
      most one generation request (with the prompt built from the fetched
      history), and always ends by posting a non-empty message to the
      channel. */
  function ReplyTask(channel: Option<string>, question: Option<string>, net: Network): (calls: seq<Call>)
    ensures 2 <= |calls| <= 4
    ensures calls[0] == FetchHistory(channel, HistoryLimit)
    ensures calls[|calls| - 1].PostMessage?
    ensures forall i :: 0 <= i < |calls| ==> StaysInChannel(calls[i], channel)
    ensures forall i :: 0 <= i < |calls| && calls[i].PostMessage? ==> calls[i].text != ""
    ensures forall i :: 0 <= i < |calls| && i != 1 ==> !calls[i].Generate?
    ensures net.history.HistoryFetched? ==> calls[1] == Generate(ModelName, PromptFor(net.history.messages, question))
    ensures net.history.HistoryFailed? ==> calls == [calls[0], PostMessage(channel, ErrorReply(net.history.error))]
    ensures net.history.HistoryFetched? ==> calls[2..] == Outcome(channel, net.generation, net.post)
  {
    var fetch := FetchHistory(channel, HistoryLimit);
    match net.history
    case HistoryFailed(e) => [fetch, PostMessage(channel, ErrorReply(e))]
    case HistoryFetched(ms) =>
      var posts := Outcome(channel, net.generation, net.post);
      var calls := [fetch, Generate(ModelName, PromptFor(ms, question))] + posts;
      assert forall i :: 2 <= i < |calls| ==> calls[i] == posts[i - 2];
      calls
  }

  /** The texts the task posts, in order. */
  function Posted(calls: seq<Call>): seq<string> {
    if calls == [] then []
    else if calls[0].PostMessage? then [calls[0].text] + Posted(calls[1..])
    else Posted(calls[1..])
  }

  /** A single call contributes its text exactly when it is a post. */
  lemma PostedSingle(c: Call)
    ensures Posted([c]) == if c.PostMessage? then [c.text] else []
  {
    assert [c][1..] == [];
  }

  /** What is posted by a trace is what its first part posts followed by
      what its second part posts; with PostedSingle this fixes Posted as
      the texts of the posts, in order and with repetitions. */
  lemma {:induction false} PostedAppend(a: seq<Call>, b: seq<Call>)
    ensures Posted(a + b) == Posted(a) + Posted(b)
  {
    if a == [] {
      assert a + b == b;
    } else {
      assert (a + b)[1..] == a[1..] + b;
      PostedAppend(a[1..], b);
    }
  }

  /** The fetch and the generation request post nothing: what the task
      posts after a fetched history is what Outcome posts. */
  lemma PostedAfterRequest(channel: Option<string>, prompt: string, posts: seq<Call>)
    ensures Posted([FetchHistory(channel, HistoryLimit), Generate(ModelName, prompt)] + posts) == Posted(posts)
  {
    var fetch, generate := FetchHistory(channel, HistoryLimit), Generate(ModelName, prompt);
    assert [fetch, generate] == [fetch] + [generate];
    PostedAppend([fetch, generate], posts);
    PostedAppend([fetch], [generate]);
    PostedSingle(fetch);
    PostedSingle(generate);
  }

  /** When every call succeeds, the task posts exactly one message: the
      extracted answer. */
  lemma HappyPath(channel: Option<string>, question: Option<string>, ms: Option<seq<Message>>, data: Generation)
    ensures var calls := ReplyTask(channel, question, Network(HistoryFetched(ms), Answered(data), Delivered));
            calls == [FetchHistory(channel, HistoryLimit),
                      Generate(ModelName, PromptFor(ms, question)),
                      PostMessage(channel, ExtractAnswer(data))]
            && Posted(calls) == [ExtractAnswer(data)]
  {
    PostedAfterRequest(channel, PromptFor(ms, question), [PostMessage(channel, ExtractAnswer(data))]);
    PostedSingle(PostMessage(channel, ExtractAnswer(data)));
  }

  /** A non-success generation status is reported in the channel as the
      error prefix followed by the thrown error, which carries the status
      body; no answer is posted. */
  lemma GenerationFailureReported(channel: Option<string>, question: Option<string>, ms: Option<seq<Message>>,
                                  body: string, post: PostResult)
    ensures Posted(ReplyTask(channel, question, Network(HistoryFetched(ms), NotOk(body), post)))
         == [ErrorPrefix + "Error: " + GenerationErrorPrefix + body]
  {
    PostedAfterRequest(channel, PromptFor(ms, question), [PostMessage(channel, GenerationFailureReply(body))]);
    PostedSingle(PostMessage(channel, GenerationFailureReply(body)));
  }

  /** A generation request that throws is reported in the channel as the
      error prefix followed by the error; no answer is posted. */
  lemma ThrownRequestReported(channel: Option<string>, question: Option<string>, ms: Option<seq<Message>>,
                              e: string, post: PostResult)
    ensures ReplyTask(channel, question, Network(HistoryFetched(ms), RequestFailed(e), post))
         == [FetchHistory(channel, HistoryLimit), Generate(ModelName, PromptFor(ms, question)),
             PostMessage(channel, ErrorReply(e))]
    ensures Posted(ReplyTask(channel, question, Network(HistoryFetched(ms), RequestFailed(e), post))) == [ErrorPrefix + e]
  {
    PostedAfterRequest(channel, PromptFor(ms, question), [PostMessage(channel, ErrorReply(e))]);
    PostedSingle(PostMessage(channel, ErrorReply(e)));
  }

  /** A success status whose body is not JSON is reported the same way:
      the error prefix followed by the parse error; no answer is posted. */
  lemma UnreadableBodyReported(channel: Option<string>, question: Option<string>, ms: Option<seq<Message>>,
                               e: string, post: PostResult)
    ensures ReplyTask(channel, question, Network(HistoryFetched(ms), UnreadableBody(e), post))
         == [FetchHistory(channel, HistoryLimit), Generate(ModelName, PromptFor(ms, question)),
             PostMessage(channel, ErrorReply(e))]
    ensures Posted(ReplyTask(channel, question, Network(HistoryFetched(ms), UnreadableBody(e), post))) == [ErrorPrefix + e]
  {
    PostedAfterRequest(channel, PromptFor(ms, question), [PostMessage(channel, ErrorReply(e))]);
    PostedSingle(PostMessage(channel, ErrorReply(e)));
  }

  /** A failed history fetch is reported and nothing is generated. */
  lemma HistoryFailureReported(channel: Option<string>, question: Option<string>, e: string, net: Network)
    requires net.history == HistoryFailed(e)
    ensures ReplyTask(channel, question, net) == [FetchHistory(channel, HistoryLimit), PostMessage(channel, ErrorReply(e))]
  {
  }

  /** If posting the answer fails, the failure is posted in turn: the
      answer is attempted first, the error reply second. */
  lemma PostFailureReported(channel: Option<string>, question: Option<string>, ms: Option<seq<Message>>,
                            data: Generation, e: string)
    ensures Posted(ReplyTask(channel, question, Network(HistoryFetched(ms), Answered(data), PostFailed(e))))
         == [ExtractAnswer(data), ErrorReply(e)]
  {
    var answer, report := PostMessage(channel, ExtractAnswer(data)), PostMessage(channel, ErrorReply(e));
    PostedAfterRequest(channel, PromptFor(ms, question), [answer, report]);
    assert [answer, report] == [answer] + [report];
    PostedAppend([answer], [report]);
    PostedSingle(answer);
    PostedSingle(report);
  }
}
