# Slack mention bot — a Dafny model of its deterministic core

The repository is one Deno edge function (`supabase/functions/slack-bot/index.ts`)
that answers Slack Events API requests. For an `app_mention` from an allowed
channel it fetches the channel's last ten messages, asks the Gemini
generation API for an answer, and posts that answer back to the channel.

This project models the rules inside that plumbing as pure Dafny functions
and proves what they promise:

- **Allow-list parsing** (`AllowList`): the `ALLOWED_CHANNEL_ID` setting is
  split on `,`, each piece is trimmed and empty pieces are dropped; unset
  means `""`. `Strings` gives `split`, `join` and `trim` with their own
  specifications (split and join are inverse; trim cuts only whitespace and
  leaves none at either end).
- **Request classification and channel gate** (`Handler`): the
  `url_verification` handshake, skipped mentions, processed mentions and
  everything else; the response; and which outbound calls a request causes.
- **History rendering** (`History`): reverse the fetched messages, render each
  as a `Model: ` or `User: ` line, join with line breaks.
- **Prompt composition** (`Prompt`): the fixed template around the history
  and the question.
- **Answer and error replies** (`Answer`): the first candidate's first text
  or the fallback `回答生成エラー`, and the `エラー: ` replies.
- **The reply task** (`Reply`): the sequence of outbound calls (history
  fetch, generation request, chat posts) as a trace, with what the network
  answers taken as an input.

JavaScript conventions are spelled out in `JsValues`: an absent field is
`None`; a string field is truthy when present and non-empty; an absent field
interpolated into a template literal shows as `undefined`.

Two details of the code are easy to misread:

- A message or event is from a bot when `bot_id` is *truthy*, not merely
  present. An empty `bot_id` counts as a user.
- The reply for a caught error is the prefix `エラー: ` followed by the error
  converted to a string, and JavaScript renders an `Error` object as
  `Error: <message>`. So a non-success generation status is reported as
  `エラー: Error: Gemini API Error: <body>`.

## Model

| member | source | states |
|---|---|---|
| Strings.Split | supabase/functions/slack-bot/index.ts:13 | `split(",")` yields at least one piece and no piece contains the separator |
| Strings.Join | supabase/functions/slack-bot/index.ts:49 | `.join("\n")`: no contract of its own; it is the inverse of `Split` by JoinSplit and SplitJoin |
| Strings.JoinSplit | supabase/functions/slack-bot/index.ts:13 | joining the pieces of a split with the separator gives back the original string |
| Strings.SplitJoin | supabase/functions/slack-bot/index.ts:13 | splitting a join of separator-free parts gives back exactly those parts, so split is the inverse of join |
| Strings.Trim | supabase/functions/slack-bot/index.ts:13 | `trim()` returns the middle of the string with only whitespace removed on either side, and the result has no whitespace at either end |
| Strings.TrimEmptyIff | supabase/functions/slack-bot/index.ts:13 | a piece trims to the empty string exactly when it is all whitespace |
| AllowList.TrimAll | supabase/functions/slack-bot/index.ts:13 | `.map(id => id.trim())` keeps the length and trims entry by entry |
| AllowList.KeepNonEmpty | supabase/functions/slack-bot/index.ts:13 | `.filter(id => id.length > 0)` keeps only non-empty entries, every non-empty one, and never adds one; order and repetitions in KeepNonEmptySingle and KeepNonEmptyAppend |
| AllowList.KeepNonEmptySingle | supabase/functions/slack-bot/index.ts:13 | one entry is kept exactly when it is non-empty |
| AllowList.KeepNonEmptyAppend | supabase/functions/slack-bot/index.ts:13 | filtering a concatenation is the concatenation of the filtered parts, so kept entries keep their order and repetitions |
| AllowList.RawSetting | supabase/functions/slack-bot/index.ts:12 | an unset setting reads as the empty string, a set one as its value |
| AllowList.Includes | supabase/functions/slack-bot/index.ts:36 | `includes` holds exactly when the channel is present and equals some entry of the list |
| AllowList.Parse | supabase/functions/slack-bot/index.ts:12-13 | every allow-list entry is non-empty, has no leading or trailing whitespace and contains no comma |
| AllowList.ParseEmptyIff | supabase/functions/slack-bot/index.ts:12-13 | the allow-list is empty exactly when the setting is unset or made only of commas and whitespace |
| AllowList.ParseUnset | supabase/functions/slack-bot/index.ts:12 | an unset or empty setting gives the empty allow-list |
| AllowList.ParseOfJoin | supabase/functions/slack-bot/index.ts:13 | a setting made of comma-joined pieces parses to those pieces trimmed, empty ones dropped, in left-to-right order |
| AllowList.ParseCanonical | supabase/functions/slack-bot/index.ts:13 | well-formed identifiers written out with commas parse back to the same list |
| History.Reverse | supabase/functions/slack-bot/index.ts:48 | `.reverse()` keeps the length and puts element `|xs|-1-i` at position i |
| History.RenderLines | supabase/functions/slack-bot/index.ts:49 | `.map(...)` gives one rendered line per message, in the same order |
| History.ContextLines | supabase/functions/slack-bot/index.ts:48-49 | there is exactly one line per fetched message, and line i renders message `n-1-i`; missing `messages` gives no lines |
| History.RenderLine | supabase/functions/slack-bot/index.ts:49 | a bot message's line is `Model: ` followed by its text, any other message's line is `User: ` followed by its text |
| History.Render | supabase/functions/slack-bot/index.ts:48-49 | the `contextText` value: empty for missing or empty `messages`; one line per message in RenderSplitsIntoLines |
| History.RenderLineParses | supabase/functions/slack-bot/index.ts:49 | a line starts with `Model: ` when the message has a truthy `bot_id` and with `User: ` otherwise, and the message text follows |
| History.RenderEmpty | supabase/functions/slack-bot/index.ts:48 | missing or empty `messages` renders as the empty string |
| History.RenderSplitsIntoLines | supabase/functions/slack-bot/index.ts:48-49 | when no message text holds a line break, the rendered history splits back into exactly one line per message, in chronological order |
| Prompt.Compose | supabase/functions/slack-bot/index.ts:59-65 | the template literal: no contract of its own; layout in ComposeLayout, line reading in ComposeLines |
| Prompt.ComposeLayout | supabase/functions/slack-bot/index.ts:59-65 | the prompt holds the instruction, `[履歴]`, the history, `[質問]` and the question in this order, at fixed offsets |
| Prompt.ComposeLines | supabase/functions/slack-bot/index.ts:59-65 | read line by line, the prompt is an empty line, the instruction, `[履歴]`, the history's lines, `[質問]`, the question and a final empty line |
| Answer.FirstText | supabase/functions/slack-bot/index.ts:75 | the optional chain yields a text exactly when one sits at `candidates[0].content.parts[0].text` |
| Answer.ExtractAnswer | supabase/functions/slack-bot/index.ts:75 | the answer is the first candidate's first part's text when that exists and is non-empty, else exactly `回答生成エラー`; it is never empty |
| Answer.ErrorString | supabase/functions/slack-bot/index.ts:71 | a thrown `Error` reads as `Error: ` followed by its message, or `Error` when the message is empty |
| Answer.ErrorReply | supabase/functions/slack-bot/index.ts:82 | an error reply is `エラー: ` followed by the error's text |
| Answer.GenerationFailureReply | supabase/functions/slack-bot/index.ts:69-71 | a non-success status is replied as `エラー: Error: Gemini API Error: ` followed by the response body |
| Answer.ErrorReplyNotAnswerFallback | supabase/functions/slack-bot/index.ts:75-82 | an error reply is never empty and never equals the fallback answer |
| Reply.Outcome | supabase/functions/slack-bot/index.ts:55-83 | after the generation request the task posts one or two non-empty messages to the triggering channel: `エラー: ` and the error for a thrown request or an unreadable body, the `Gemini API Error: ` reply for a non-success status, otherwise the extracted answer, followed by an error reply exactly when posting it failed |
| Reply.ReplyTask | supabase/functions/slack-bot/index.ts:44-84 | the task first fetches the channel's last 10 messages, touches no other channel, sends at most one generation request carrying the prompt built from the fetched history, and always ends with a non-empty post; a failed fetch is followed only by `エラー: ` and the error, and after a fetched history the posts are exactly those of Reply.Outcome |
| Reply.PostedAppend | supabase/functions/slack-bot/index.ts:78-82 | the posted texts of a trace are those of its parts in order, so (with PostedSingle) exactly the `chat.postMessage` texts with order and repetitions kept |
| Reply.ThrownRequestReported | supabase/functions/slack-bot/index.ts:55-82 | a generation request that throws gives fetch, generate, then one post of `エラー: ` and the error, and nothing else is posted |
| Reply.UnreadableBodyReported | supabase/functions/slack-bot/index.ts:74-82 | a success body that is not JSON gives fetch, generate, then one post of `エラー: ` and the parse error, and nothing else is posted |
| Reply.HappyPath | supabase/functions/slack-bot/index.ts:47-78 | when every call succeeds the calls are: fetch, generate, post the extracted answer; exactly one message is posted |
| Reply.GenerationFailureReported | supabase/functions/slack-bot/index.ts:69-82 | on a non-success generation status the only message posted is the error reply carrying the `Gemini API Error: ` text |
| Reply.HistoryFailureReported | supabase/functions/slack-bot/index.ts:47-82 | a failed history fetch is reported in the channel and no generation request is made |
| Reply.PostFailureReported | supabase/functions/slack-bot/index.ts:78-82 | when posting the answer fails, the error reply is posted after it |
| Handler.Classify | supabase/functions/slack-bot/index.ts:24-39 | `url_verification` gives `Verify` with the challenge; a non-bot `app_mention` is processed iff the list is empty or holds its channel, and skipped otherwise; everything else is ignored |
| Handler.Respond | supabase/functions/slack-bot/index.ts:24-38 | every classified body is answered with status 200: the challenge as JSON for the handshake, plain `OK` otherwise |
| Handler.Handle | supabase/functions/slack-bot/index.ts:19-92 | a parse failure gives status 500 with the error message and no calls; outbound calls happen iff the body is a processed mention, and they are then the reply task for the event's channel and text |
| Handler.VerificationEchoes | supabase/functions/slack-bot/index.ts:24-28 | the handshake echoes the challenge unchanged, makes no calls, and does not depend on the body's event |
| Handler.BotEventsIgnored | supabase/functions/slack-bot/index.ts:31-88 | an event with a truthy `bot_id` is answered `OK` with no calls, whatever its channel |
| Handler.EmptyListAdmitsAll | supabase/functions/slack-bot/index.ts:36-86 | with an empty allow-list every non-bot mention is processed and runs the reply task |
| Handler.UnlistedChannelSkipped | supabase/functions/slack-bot/index.ts:36-39 | with a non-empty allow-list a mention from an unlisted channel is skipped: `OK` and no outbound call |
| Handler.ResponseIndependentOfTask | supabase/functions/slack-bot/index.ts:86-88 | the HTTP response is the same whatever the network answers to the reply task |
| Handler.BlankSettingAdmitsAll | supabase/functions/slack-bot/index.ts:12-36 | an unset or blank setting admits every non-bot mention |
| Handler.ListedChannelProcessed | supabase/functions/slack-bot/index.ts:13-36 | for a setting listing well-formed identifiers, a mention is processed iff its channel is one of them |

## Left out

- The HTTP server, `req.json()` and `Response` construction are not modelled. A body that does not parse is the abstract `Malformed` request.
- JSON bodies that are not objects are not modelled. For example, `null` makes `body.type` throw, which leads to status 500.
- Field values are modelled as strings or absent. A JSON number or object in `bot_id`, `channel`, `text` or `challenge` of the request is not modelled.
- The same holds on the response side: a non-string `text` in a history message or in a generation response part is not modelled.
- A generation response whose JSON body is `null` makes reading `candidates` throw, so an error reply is posted instead of the fallback. The model's `Answered` result always carries an object, and that case is not modelled.
- The JSON text of the challenge response is not modelled; the response carries the challenge value itself.
- The Slack `WebClient` calls and the Gemini `fetch` are outbound network calls. They appear as entries of the call trace, and what they return is an input (`Reply.Network`).
- The generation request's URL is not modelled, and neither is the API key it carries. The request keeps only the model name and the prompt.
- The string form of an error thrown by the network libraries is taken as an input string.
- `EdgeRuntime.waitUntil` versus the inline `await` fallback is background-task scheduling, so it is not modelled. The model follows the `waitUntil` path, where the response never depends on the task.
- Under the inline `await` fallback, a failing error post would turn the response into status 500. That is not modelled.
- A failure of the error post itself is an unhandled rejection, so the model records no further call after it.
- Reading the environment (`Deno.env.get`) and logging (`console.log`, `console.error`) are I/O and are not modelled. The allow-list setting is a parameter.
- Strings are sequences of Unicode characters, while JavaScript strings are UTF-16 code units. A lone surrogate such as `"\ud800"` in a JSON `text` or `channel` has no counterpart in the model. No modelled rule depends on this: `id.length > 0`, `trim` and `includes` give the same answers either way.
- Trimming removes a fixed character set: ECMAScript WhiteSpace and LineTerminator, written out in `Strings.Whitespace`.
- History.RenderSplitsIntoLines: "one line per message" is proved only when no message text contains a line break, because a multi-line Slack message spans several lines of the rendered history.
- Prompt.ComposeLines: the line-by-line reading is proved for a single-line question, for the same reason.
