# Trivia poll bot: generate-and-publish orchestration

This project models the decision logic of a small Express request handler. Each
`GET /api/cron` trigger asks a text-generation service for a multiple-choice
programming question. The handler checks that a question and some options came
back, publishes them as a poll to a messaging service's `sendPoll` endpoint, and
retries the whole generation once if the generation threw or came back empty. A
failed publish is logged and not retried. It always answers the
trigger with `200 text/plain "poll sent!\n"`.

The two external services are oracles:

- `gen(k)` is what the k-th call of the generator yields. It is either `Failed` (the service
  failed, or `JSON.parse` rejected its text, or the value could not be destructured),
  or `Ok(question, options, correctOptionId)`. In `Ok`, the question and the options may be
  absent, and `correctOptionId` is an integer.
- `deliver(k)` is how the poll request of the attempt that used generator call k
  fared (`Delivered` or `RequestFailed`).

Effects are recorded as a trace of `GenerateCalled(k)` and `PollPosted(request)`
events.

Layout:

- `js.dfy` (`JsModel`): absent values, string truthiness, and completions
  (`Normal` or `Threw`), which model a resolving or a rejecting promise.
- `poll.dfy` (`TelegramPoll`): the publisher. It covers the endpoint URL, the
  four-field form (a `FormData` class filled by `Append`), and a publisher that
  swallows every failure.
- `orchestrator.dfy` (`Orchestrator`): `main(retry)` as two mutually recursive
  functions. `TryResult` is the `try` block and `MainResult` is the whole
  function with its `catch`. The `Bot` class runs the same control flow
  imperatively, with a call counter and a ghost trace, and each of its methods is
  proved equal to the functions. The lemmas state the retry bound and the
  publish-once rules for every pair of oracles.
- `cron.dfy` (`CronRoute`): the route handler and the reply it sends.

One detail of the source matters for the retry bound. On an empty result, the
retry `await main(true)` (index.js:91) runs inside the `try` block, so the outer
`catch` would see any error it threw. The bound of two generator calls therefore
depends on `main(true)` never rejecting. The model states this as
`MainResult`'s `ensures r.completion == Normal`, which is proved through the
mutual recursion.

The prompt asks for 2 to 5 options (index.js:64, 72) and for `correctOptionId` to
be the index of the correct answer in the options array (index.js:51). The code
checks neither. The model follows the code: the guard checks only a truthy question and a non-empty options list
(`UncheckedCorrectOptionId`).

## Model

| member | source | states |
|---|---|---|
| `TelegramPoll.PollUrl` | index.js:20 | the endpoint is the fixed prefix, the bot credential and `/sendPoll`, with the length that implies |
| `TelegramPoll.PollUrlToken` | index.js:20 | the credential can be read back out of the endpoint URL, so distinct bots post to distinct URLs |
| `TelegramPoll.PollForm` | index.js:22-25 | the payload has exactly the fields `chat_id`, `question`, `options`, `correct_option_id`, in that order |
| `TelegramPoll.PollFormShape` | index.js:21-25 | each payload field gives back the value passed for it: chat id, question, JSON-encoded options, numeric index |
| `TelegramPoll.FormData.constructor` | index.js:21 | a new form has no entries |
| `TelegramPoll.FormData.Append` | index.js:22-25 | append adds one entry at the end and changes nothing else |
| `TelegramPoll.BuildPollForm` | index.js:21-25 | the four `append` calls build exactly the specified payload in a fresh form |
| `TelegramPoll.CreateTelegramPoll` | index.js:19-36 | whatever the service answers, the publisher completes normally; it posts to the bot's URL exactly the four-field payload for the configured chat id and the given question, options and index |
| `Orchestrator.Guard` | index.js:84 | it publishes iff the question is truthy and options is present and non-empty; it throws TypeError iff the question is truthy and options is absent; published values pass through unchanged |
| `Orchestrator.GenerationCases` | index.js:82-99 | each generation is exactly one of passing the guard, empty and throwing, and the guard's verdict matches that class |
| `Orchestrator.TryResult` | index.js:81-93 | the try block calls the generator first, at call k, and always moves the call counter forward |
| `Orchestrator.MainResult` | index.js:80-101 | `main(retry)` never rejects, on every pair of oracles, and makes at least one generator call |
| `Orchestrator.RetryRunsOnce` | index.js:89-99 | `main(true)` calls the generator exactly once and never re-enters; a generation that passes the guard is posted once, with exactly its question, options and index; otherwise the trace is that one call |
| `Orchestrator.GeneratorAtMostTwice` | index.js:80-101 | per trigger the generator is called once or twice, and the trace records exactly those calls |
| `Orchestrator.RetryFree` | index.js:82-86 | a first generation that passes the guard gives one generator call and one post carrying exactly its question, options and index, with no retry |
| `Orchestrator.FailedFirstAttempt` | index.js:84-99 | an empty or throwing first generation publishes nothing on that pass and is followed by exactly one `main(true)` at call k+1 |
| `Orchestrator.SecondAttemptPublishes` | index.js:87-99 | a failed first generation followed by one that passes the guard gives two generator calls and one post, carrying exactly the second generation's values |
| `Orchestrator.BothAttemptsFail` | index.js:80-101 | if both generations fail, the trace is the two generator calls, nothing is posted, and `main` returns normally |
| `Orchestrator.PublishAtMostOnce` | index.js:84-99 | at most one poll is posted per trigger, and one is posted iff one of the two generations passes the guard |
| `Orchestrator.DeliveryIgnored` | index.js:26-35 | how the messaging service answers does not change the generator calls, the number of posts or how `main` ends, so a publish failure never causes a retry |
| `Orchestrator.UncheckedCorrectOptionId` | index.js:84-86 | a first generation that passes the guard with an index outside its options is still published, with that index unchanged |
| `Orchestrator.Bot.constructor` | index.js:16-17 | a bot holds its configuration and services, and starts with no calls and an empty trace |
| `Orchestrator.Bot.GenerateQuestionAndOptions` | index.js:38-78 | one generator call returns the oracle's next outcome and records it |
| `Orchestrator.Bot.CreateTelegramPoll` | index.js:19-36 | building the form and posting it appends exactly the publisher's request to the trace and completes as the publisher does |
| `Orchestrator.Bot.TryBody` | index.js:81-93 | the imperative try block leaves the trace, the counter and the completion that `TryResult` specifies |
| `Orchestrator.Bot.RunMain` | index.js:80-101 | the imperative `main(retry)` leaves the trace, the counter and the completion that `MainResult` specifies |
| `CronRoute.CronReply` | index.js:103-107 | a reply is sent iff `main` resolved, and it is always status 200, `text/plain`, `"poll sent!\n"` |
| `CronRoute.CronAlwaysAcknowledges` | index.js:103-107 | on every pair of oracles the trigger gets the fixed acknowledgment |
| `CronRoute.Response.constructor` | index.js:103 | the `res` handed to the handler has status 200 (the server's default), the headers already set, an empty body, and is not ended |
| `CronRoute.Response.SetHeader` | index.js:106 | setting a header updates that one header and changes nothing else |
| `CronRoute.Response.End` | index.js:107 | ending appends the chunk to the body and marks the response ended, leaving the status and headers unchanged |
| `CronRoute.HandleCron` | index.js:103-108 | the handler runs `main(false)` exactly as specified, then sets status 200 and the `text/plain` content type, and ends the response with `"poll sent!\n"` |

## Left out

- Express setup, the CORS middleware, `app.listen` and the dotenv and environment reads (index.js:1-17, 109-112). They are server plumbing. The credential and chat id are a `Config` value, and the response headers CORS would have set are an opaque starting map.
- The generation SDK call and prompt text (index.js:39-76). It is a foreign network client. Every way it can fail, including `JSON.parse` errors and a parsed `null`, is the single outcome `Failed`.
- `fetch` and `response.json()` to the messaging service (index.js:27-32). They are network I/O. A post is a recorded `PollPosted` event with an oracle-chosen `Delivery`.
- The JSON typing of the parsed fields. `question` is a string or absent, `options` a list of strings or absent, `correctOptionId` an integer. Non-string questions, non-array `options` (a string also has `.length`) and other JSON shapes are not modelled.
- `TelegramPoll.CreateTelegramPoll`: the text of `JSON.stringify(options)` is kept abstract (`JsonEncoded`), because it is a library encoding (quoting and escaping) outside the orchestration logic.
- `TelegramPoll.CreateTelegramPoll`: the text of `Number(correctOptionId)` in the form is kept abstract (`NumberValue`), because it follows JavaScript's numeric coercion and NaN rules.
- Console logging (index.js:32, 34, 85, 88, 90, 95, 97). It is a side effect with no influence on control flow.
- Overlapping concurrent triggers and the absence of timeouts. The code does no coordination, and a stalled service is outside a finite trace.
