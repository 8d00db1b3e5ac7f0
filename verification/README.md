# OWL conversation driver — a Dafny model

This project models the round-based conversation driver of the OWL REST
service: `run_society` and its asynchronous twin `arun_society`. The driver
initialises an agent "society" once, then for each round up to a round limit
(default 15) it calls the society's step, tallies token usage when both the
assistant's and the user's response report it, converts the assistant's tool
calls into records, appends one history record per round, and stops on the
first round whose termination test fires. It returns the assistant text of the
last record, the history, and the token tally.

The society comes from an external agent framework and is opaque. It is
modelled as a sequence `steps` of response pairs: entry `i` is what the `i`-th
step call returns. When a step call is needed past the end of `steps`, that
call is taken to have raised. The message fed into each step is a real output
of the driver method (`inputs`), so the feedback of each round's assistant
message into the next round can be stated.

Modules:

- `Wrappers` (`wrappers.dfy`): `Option` and `Result`.
- `Messages` (`messages.dfy`): the parts of a response the driver reads. These
  are the message, the usage dictionary, the tool calls and the termination
  flag. Python truthiness of the usage dictionary is modelled too: an empty
  dictionary counts as absent.
- `Text` (`text.dfy`): substring search, which is what Python's `in` does on
  strings.
- `ToolCalls` (`tool_calls.dfy`): tool-call record extraction.
- `Tally` (`tally.dfy`): the two copies' token arithmetic. Independent per-role
  sums are defined alongside it, and lemmas connect the two.
- `Driver` (`driver.dfy`): the termination test, the reference semantics
  `Drive`, the loop method `RunRounds`, and the entry points `RunSociety` and
  `ARunSociety`. It also holds the lemmas that characterise every outcome.
- `DriverExamples` (`examples.dfy`): small concrete conversations.

The two copies differ in their tally arithmetic, and the model keeps both as
written. The synchronous copy adds both roles' completion tokens to the
completion count and both roles' prompt tokens to the prompt count. The
asynchronous copy adds the assistant's completion tokens to the *prompt*
count. It never reads the user's completion tokens and never increments the
completion count, so that count is always 0. `Tally.AsyncVersusSync` states
the exact relation between the two copies, and `DriverExamples.TalliesDiverge`
shows it on a single round.

Error paths are modelled as `Result.Failure` values instead of preconditions:

- `StepRaised(r)`: the step call of round `r` raised.
- `MissingUserMessage(r)`: in round `r` neither termination flag was set and
  the user response had no message. The termination test then reads
  `user_response.msg.content` without the absence guard that record building
  uses, so it fails. This happens after the record was appended, and the
  exception discards it.
- `EmptyHistory`: the round limit is 0 or negative. `range(round_limit)` is
  then empty, and `chat_history[-1]` fails on the empty history.

## Model

| member | source | states |
|---|---|---|
| Text.Contains | restful/src/owl/utils/__init__.py:90 | the sentinel check is true exactly when the sentinel occurs at some index of the user's message text; the empty string occurs everywhere |
| ToolCalls.ExtractToolCalls | restful/src/owl/utils/__init__.py:63-67 | a round's tool-call records have the same length and order as the assistant's tool calls, with no filtering; they are empty when the tool calls are absent or empty |
| Driver.TerminationTest | restful/src/owl/utils/__init__.py:87-92 | a round stops exactly when a side is terminated or the user text contains "TASK_DONE"; it fails exactly when neither flag is set and the user message is absent |
| Driver.StopsAt | restful/src/owl/utils/__init__.py:87-92 | if round k is within the limit, every earlier round continued, and round k stops, the history has exactly k+1 records and exactly k+1 step calls are made |
| Driver.CrashesAt | restful/src/owl/utils/__init__.py:87-90 | if round k is within the limit, earlier rounds continued, and round k has neither flag and no user message, the invocation fails at round k after k+1 step calls |
| Driver.RaisesAfterLastStep | restful/src/owl/utils/__init__.py:52-53 | when every available response pair continues and the limit asks for more rounds, the next step call raises and the error propagates |
| Driver.RunsToLimit | restful/src/owl/utils/__init__.py:52-96 | when no round within the limit stops, exactly round_limit rounds run; a non-positive limit ends in the empty-history error |
| Driver.SuccessShape | restful/src/owl/utils/__init__.py:52-102 | a success has 1 to round_limit records, one per executed round in order, each holding that round's user text, assistant text ("" when absent) and tool calls; all rounds but the last continued and the last stopped or hit the limit; the answer is the last record's assistant text; the tally covers exactly the executed rounds |
| Driver.EmptyHistoryIffNoRounds | restful/src/owl/utils/__init__.py:96 | the empty-history error happens if and only if the round limit is at most 0 |
| Driver.StepRaisedIff | restful/src/owl/utils/__init__.py:52-53 | a step failure at round r is reported if and only if r is the number of available pairs, all of them continued, and r is below the limit |
| Driver.MissingUserMessageIff | restful/src/owl/utils/__init__.py:87-90 | the absent-user-message error at round k happens if and only if k is within the limit, earlier rounds continued, and round k has neither flag and no user message |
| Driver.LaterStepsIgnored | restful/src/owl/utils/__init__.py:87-94 | responses after the last executed step do not change the result: no round runs after the stopping round |
| Driver.RunRounds | restful/src/owl/utils/__init__.py:52-96 | the loop computes the reference semantics: each round adds the round's tally deltas under the copy's rule, appends the round's record and applies the termination test; the step is called at most round_limit times (never for a non-positive limit) and at most once past the pairs available; the first step gets the initial message and each later step the previous round's assistant message |
| Driver.RunSociety | restful/src/owl/utils/__init__.py:40-102 | synchronous driver with the round limit defaulting to 15: on success there are 1 to round_limit records and the answer is the last record's assistant text; the completion count sums both roles' completion tokens and the prompt count both roles' prompt tokens, over executed rounds where both sides report usage; the step is called at most round_limit times and step inputs are fed back |
| Driver.ARunSociety | restful/src/owl/utils/__init__.py:105-168 | asynchronous driver with the round limit defaulting to 15: same loop and history; the completion count is 0; the prompt count sums the assistant's completion and prompt tokens and the user's prompt tokens over executed rounds where both sides report usage |
| Tally.UnreportedRoundAddsNothing | restful/src/owl/utils/__init__.py:55 | a round where either side lacks usage leaves the tally unchanged |
| Tally.OnlyReportedRoundsCount | restful/src/owl/utils/__init__.py:55-61 | the tally over all rounds equals the tally over just the rounds where both sides report usage |
| Tally.TallyMonotone | restful/src/owl/utils/__init__.py:56-61 | neither count decreases as rounds are added |
| Tally.SyncTallyIsPerRoleSum | restful/src/owl/utils/__init__.py:56-61 | synchronous counts are assistant + user completion tokens and assistant + user prompt tokens, summed over rounds where both sides report usage, a missing key counting 0 |
| Tally.AsyncTallyIsPerRoleSum | restful/src/owl/utils/__init__.py:120-126 | asynchronous completion count is 0; the prompt count is assistant completion + assistant prompt + user prompt tokens over rounds where both sides report usage |
| Tally.AsyncVersusSync | restful/src/owl/utils/__init__.py:120-126 | the asynchronous prompt count plus the users' completion tokens equals the synchronous completion count plus the synchronous prompt count |
| DriverExamples.AssistantTerminatesInSecondRound | restful/src/owl/utils/__init__.py:87-92 | with limit 3 and the assistant terminated in round 2, the history has 2 records and the answer is round 2's assistant text |
| DriverExamples.SentinelInFirstRound | restful/src/owl/utils/__init__.py:90 | a first-round user text "TASK_DONE" with the default limit 15 gives a history of 1 record |
| DriverExamples.TalliesDiverge | restful/src/owl/utils/__init__.py:120-126 | for one round with assistant usage (5, 7) and user usage (3, 11), the synchronous copy tallies (8, 18) and the asynchronous copy (0, 23) |

## Left out

- The log lines of each round (restful/src/owl/utils/__init__.py:80-85, 145-150). They only write output.
- The initialisation prompt and `society.init_chat` (lines 48-51, 113-116). They belong to the external framework. Their result is the parameter `initMsg`.
- The internals of `step`/`astep`. The responses are a given sequence, fixed in advance. The model therefore cannot express that a response depends on the message fed in. It records the messages fed in (`inputs`) instead.
- `tool_call.as_dict()`. It belongs to the external framework. A record is the tool call's own fields, so the conversion is the identity.
- The suspension behaviour of `arun_society`. It is modelled as the same sequential loop with its own tally arithmetic.
- Usage values that are not non-negative integers, such as a key that is present but holds `None`. Token counts are `nat`.
- Model and toolkit construction (restful/src/services/owl.py, examples/run_litellm.py), the HTTP application and endpoints, and settings loading. These are configuration and plumbing around the driver.
