# Reasoning-session protocol of the step-by-step reasoning assistant

This project models the protocol at the heart of `src/main.py`, with its network, clock, thread
and UI dependencies abstracted away.

- **Gateway** (`gateway.dfy`, `rate_limited_api_call`). A call makes up to three attempts at the
  completion endpoint and returns the first reply that parses. It waits one second between
  attempts. When all three fail it returns a synthetic `"Error"` reply instead of raising; for a
  step call that reply asks for the final answer. The endpoint is an *oracle*: a finite script of
  attempt outcomes (`Ok(reply)` or `Fail(error)`), read at a global attempt cursor. Every attempt
  past the script's end fails.
- **Driver** (`driver.dfy`, `generate_response`). Starts from the three opening messages. It asks
  for steps until a reply's `next_action` is `"final_answer"`. Each step is put on the queue as a
  record headed `Step n: title` and fed back into the transcript as an assistant message. Then
  the driver asks for the final answer, puts one final record, and ends with the end marker.
  - `StepLoop` and `GenerateResponse` are the imperative loop.
  - `Drive` and `Session` state the same run as functions of the oracle.
  - The lemmas state what the run looks like: its numbering, the queue, and the transcript.
- **Records and headings** (`formatter.dfy`, lines 74-75 and 96 with `format_step` and
  `format_final_answer`). A missing title or content falls back to `No Title` / `No Content`. A
  record renders as its heading and its content; the step number can be read back from a heading.
- **Submit handler** (`submit.dfy`, `on_submit`). A missing key, an empty query or a client that
  fails to initialise ends the request with one message. Otherwise the session runs and the
  handler drains the queue, yielding after each item the concatenation of everything read so far.
- `replies.dfy` holds the shared reply and message types.

The producer and the consumer run one after the other: the driver runs to completion, then the
handler drains the queue it produced.

Three details of the code shape the model:
- The rate limit decorates the whole gateway call, so it applies per call, not per attempt.
- A reply is not checked against a schema: a missing key falls back to its default and is never
  retried.
- Step calls are capped at 300 tokens and the final call at 200. The caps are passed to the
  endpoint and play no part in the protocol.

## Model

| member | source | states |
|---|---|---|
| `Formatter.StepRecordOf` | src/main.py:74-75 | the step record carries the step number, the reply's title or `No Title` when it is missing, and its content or `No Content` |
| `Formatter.FinalRecordOf` | src/main.py:96 | the final record carries the reply's content, or `No Content` when it is missing; nothing else of the reply |
| `Formatter.DecimalString` | src/main.py:74 | the step number is written as a non-empty run of decimal digits, two or more from 10 on, with no leading zero for a positive number |
| `Formatter.Heading` | src/main.py:74 | definition: `Step n: title` for a step record, the `Final Answer` literal (src/main.py:115) for the final one; characterised by `HeadingNumberRoundTrip` and `HeadingsDistinct` |
| `Formatter.Render` | src/main.py:100-121 | definition: heading line, then content; characterised by `RenderParts` |
| `Formatter.DecimalRoundTrip` | src/main.py:74 | reading the written step number back gives the number |
| `Formatter.RenderParts` | src/main.py:100-121 | a rendered record starts with its heading and holds its content unchanged after it |
| `Formatter.LeadingDigitsOfNumber` | src/main.py:74 | in a step heading the digits of the number end where the `: ` separator begins |
| `Formatter.HeadingNumberRoundTrip` | src/main.py:74 | a step heading gives back its step number; the `Final Answer` heading gives none |
| `Formatter.HeadingsDistinct` | src/main.py:74 | two step records with different numbers have different headings |
| `Formatter.StepThreeHeading` | src/main.py:74 | step 3 titled `Check Units` is headed `Step 3: Check Units` |
| `Gateway.AttemptAt` | src/main.py:23-30 | definition: the outcome of the i-th attempt at the endpoint, a failure past the end of the script; characterised through `RespondSpec` and `RespondLocal` |
| `Gateway.ErrorReply` | src/main.py:32-36 | the error reply is titled `Error`; a step call's asks for the final answer, a final call's has no next action |
| `Gateway.ErrorReplyNamesFailure` | src/main.py:34-36 | the error reply's content ends with the description of the last failure |
| `Gateway.RespondFrom` | src/main.py:21-36 | continuing from attempt `a`, a call ends after more than `a` and at most three attempts |
| `Gateway.RespondFromSpec` | src/main.py:21-36 | continuing from attempt `a`, the attempts before the last failed, a non-exhausted call returns the last attempt's reply, and an exhausted one made three attempts and returns the error reply for the third failure |
| `Gateway.Respond` | src/main.py:20-36 | a call makes one to three attempts; a call that succeeded used only scripted outcomes; an exhausted call returns the error reply for its third failure |
| `Gateway.RespondSpec` | src/main.py:21-36 | a call returns the reply of its first successful attempt, every attempt before it failed, and it is exhausted exactly when all three attempts fail |
| `Gateway.RespondFromLocal` | src/main.py:21-30 | from any attempt on, the result depends only on the outcomes of the attempts made |
| `Gateway.RespondLocal` | src/main.py:21-30 | a call consults no outcome after the attempt it stops at: endpoints that agree on the attempts made give the same result |
| `Gateway.CallGateway` | src/main.py:20-37 | the retry loop returns the reply and attempt count of `Respond`, and waits exactly once between consecutive attempts, never after the last |
| `Driver.Opening` | src/main.py:40-62 | the transcript starts with three messages whatever the prompt: the system instruction, the user's prompt, and the assistant's fixed acknowledgement |
| `Replies.EndsSession` | src/main.py:82 | definition: the reply's `next_action` is exactly `final_answer`; characterised by `SessionShape` and `SessionNumbering` |
| `Driver.Drive` | src/main.py:67-91 | definition: the step loop from a given attempt and steps made, then the final call; characterised by `DriveShape` and `DriveCalls` |
| `Driver.Session` | src/main.py:64-91 | definition: the whole session from attempt 0 with no steps made; characterised by `SessionShape`, `SessionCalls` and `SessionNumbering` |
| `Driver.DriveShape` | src/main.py:67-86 | the loop keeps the steps made so far, stops at the first reply asking for the final answer, and makes at most one step more than there are scripted outcomes left |
| `Driver.SessionShape` | src/main.py:67-86 | a session has between one and (script length + 1) steps; every step but the last continues; the last asks for the final answer; an exhausted step is the last |
| `Driver.DriveCalls` | src/main.py:67-91 | each step call starts at the attempt where the previous call stopped, and the final call starts where the last step call stopped |
| `Driver.SessionCalls` | src/main.py:67-91 | the session's calls, described without the loop: step call i starts where step call i - 1 stopped, and the final call follows the last step call |
| `Driver.StepRecords` | src/main.py:74-78 | definition: one record per step, numbered by the step count at the time; characterised by `StepNumbering` |
| `Driver.Queue` | src/main.py:96-98 | definition: the step records, the final record, the end marker; characterised by `QueueShape` |
| `Driver.StepMessages` | src/main.py:80 | definition: one assistant message per step holding its reply; characterised by `StepMessagesShape` and `StepMessagesPrefix` |
| `Driver.Transcript` | src/main.py:88 | definition: opening, step messages, final request; characterised by `TranscriptShape` and `ContextsAppendOnly` |
| `Driver.StepNumbering` | src/main.py:64-85 | step records are numbered 1..n without gaps or repeats, record i carrying step i's reply |
| `Driver.StepMessagesShape` | src/main.py:80 | one assistant message per step, in step order, each holding that step's reply |
| `Driver.TranscriptShape` | src/main.py:39-88 | the final transcript is the three opening messages, then one assistant message per step in order, then the request for the final answer |
| `Driver.StepMessagesPrefix` | src/main.py:80 | the step messages of an earlier point in the loop are the first messages of a later one |
| `Driver.StepContextsShape` | src/main.py:67-80 | step call i is sent the opening followed by the replies of the i steps before it |
| `Driver.ContextsAppendOnly` | src/main.py:39-91 | the transcript only grows: every call's context is a prefix of every later call's, step call i sees 3 + i messages, and the final call sees the whole transcript |
| `Driver.QueueShape` | src/main.py:74-98 | the queue holds n step records numbered 1..n, then exactly one final record, then exactly one end marker, which appears nowhere else |
| `Driver.SessionNumbering` | src/main.py:64-85 | the session's records are numbered 1..n, where n is the position of the first step reply that asks for the final answer |
| `Driver.ExhaustedFirstStep` | src/main.py:31-36 | when the first step call fails three times, the session has that one step, recorded as step 1 with the error title and content, and the final call follows |
| `Driver.EmptyScriptQueue` | src/main.py:31-98 | with an endpoint that always fails, the queue is the step-1 error record, the final error record and the end marker |
| `Driver.TwoStepQueue` | src/main.py:67-98 | a concrete session with a retried second step yields two numbered records, the `No Content` default, the final record and the end marker |
| `Driver.StepLoop` | src/main.py:64-85 | the step loop builds the transcript, queue and call contexts of exactly the session's steps, and stops at the attempt where the session's final call starts |
| `Driver.GenerateResponse` | src/main.py:39-98 | the producer's transcript, queue and call contexts are those of the session the oracle determines |
| `Submit.TextsShape` | src/main.py:76-97 | the consumer sees each queue item rendered as text, and the end marker unchanged |
| `Submit.EndIndex` | src/main.py:145-148 | locates the first end marker: every item before it is a record |
| `Submit.Accumulated` | src/main.py:144-150 | definition: the first k items concatenated in queue order; characterised by `AccumulatedGrows` and `Drain` |
| `Submit.AccumulatedGrows` | src/main.py:144-150 | each output extends every earlier one |
| `Submit.Drain` | src/main.py:144-150 | the drain loop yields once per item before the first end marker, and after reading k items it has yielded the concatenation of the first k |
| `Submit.OnSubmit` | src/main.py:124-150 | a request starts a session exactly when a key is set, the query is non-empty and the client initialises; otherwise it yields the one message of the first failing guard; a started session yields n + 1 outputs, the accumulated rendered records |
| `Submit.QueueEnd` | src/main.py:96-98 | the end marker of a session's published queue comes right after the final record |
| `Submit.SessionOutputs` | src/main.py:74-98 | a session publishes its step records rendered in order, then its rendered final record, then the end marker |

## Left out

- The remote completion call and `json.loads`: modelled by the oracle's outcomes. A reply that
  parses to something other than an object, and fields that are not strings, are not modelled.
- `json.dumps` of a step reply: the assistant message records the reply it serialises.
- The `ratelimit` decorators (29 calls per 60 seconds): a third-party, wall-clock-based library.
- `time.time`, `time.sleep` and the thinking-time sums: waits are only counted, in `CallGateway`.
- The thread and the blocking queue: the producer runs to completion before the consumer drains.
- HTML markup and timing lines of `format_step` and `format_final_answer`: a record renders as
  its heading line and its content.
- The system prompt is shortened to its first sentence; the model name, temperature and response
  format are not modelled.
- The UI, `load_dotenv` and `os.getenv`: the key is a parameter. Client construction is a
  parameter giving its error, if any.
- Termination: the source loops for as long as the endpoint keeps answering `continue`. A scripted
  endpoint is finite and every attempt past its end fails, so every modelled session ends.
