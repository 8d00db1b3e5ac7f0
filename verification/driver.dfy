/**
 * The round-based conversation driver (`run_society` and its asynchronous
 * twin `arun_society`). The society is opaque: it is modelled by the sequence
 * `steps` of response pairs, entry `i` being what the `i`-th step call
 * returns; a call past the end of `steps` is a step that raised. The message
 * fed into each step is returned alongside the result so that the feedback of
 * the assistant's message into the next round can be stated.
 */
module Driver {
  import opened Wrappers
  import opened Messages
  import opened Text
  import opened ToolCalls
  import opened Tally

  /** The sentinel text whose presence in the user's message ends the conversation. */
  const TaskDoneMarker := "TASK_DONE"

  /** One entry of the chat history: both messages' text and the assistant's tool calls. */
  datatype RoundRecord = RoundRecord(user: string, assistant: string, toolCalls: seq<ToolCall>)

  /** What the driver returns: the answer, the chat history and the token tally. */
  datatype Outcome = Outcome(answer: string, history: seq<RoundRecord>, tokens: TokenTally)

  /**
   * The exceptions the driver lets escape: a step that raised, the
   * termination test reading the content of an absent user message, and
   * indexing the last record of an empty history.
   */
  datatype DriverError = StepRaised(round: nat) | MissingUserMessage(round: nat) | EmptyHistory

  /** The three outcomes of the end-of-round test. */
  datatype Verdict = Continue | Stop | Crash

  /**
   * The end-of-round test, evaluated left to right with short-circuit: either
   * termination flag stops; otherwise the user's message content is read,
   * which fails when there is no message, and the sentinel in it stops.
   */
  function TerminationTest(p: StepPair): (v: Verdict)
    ensures v == Stop <==> p.assistant.terminated || p.user.terminated
                           || (p.user.msg.Some? && exists i: nat :: OccursAt(p.user.msg.value.content, TaskDoneMarker, i))
    ensures v == Crash <==> !p.assistant.terminated && !p.user.terminated && p.user.msg.None?
  {
    if p.assistant.terminated || p.user.terminated then Stop
    else if p.user.msg.None? then Crash
    else if Contains(p.user.msg.value.content, TaskDoneMarker) then Stop
    else Continue
  }

  /** The history entry a round produces. */
  function RecordOf(p: StepPair): RoundRecord {
    RoundRecord(Content(p.user), Content(p.assistant), ListedCalls(p.assistant))
  }

  /** The history entries of the rounds `ps`, in round order. */
  function Records(ps: seq<StepPair>): seq<RoundRecord> {
    seq(|ps|, i requires 0 <= i < |ps| => RecordOf(ps[i]))
  }

  /** The number of rounds that can run: the round limit, as a range bound, capped by the steps available. */
  function Available(steps: seq<StepPair>, roundLimit: int): (n: nat)
    ensures n <= |steps|
    ensures n <= roundLimit || n == 0
  {
    if roundLimit <= 0 then 0
    else if roundLimit < |steps| then roundLimit
    else |steps|
  }

  /** The first round in `[from, bound)` whose test does not say Continue, or `bound` if there is none. */
  function FirstStop(steps: seq<StepPair>, from: nat, bound: nat): (k: nat)
    requires from <= bound <= |steps|
    ensures from <= k <= bound
    ensures forall i :: from <= i < k ==> TerminationTest(steps[i]) == Continue
    ensures k < bound ==> TerminationTest(steps[k]) != Continue
    decreases bound - from
  {
    if from == bound then bound
    else if TerminationTest(steps[from]) != Continue then from
    else FirstStop(steps, from + 1, bound)
  }

  /** The driver's result once the rounds `ps` have run and the loop has ended normally. */
  function OutcomeOf(rule: TallyRule, ps: seq<StepPair>): Outcome
    requires |ps| > 0
  {
    var history := Records(ps);
    Outcome(history[|history| - 1].assistant, history, TallyOf(rule, ps))
  }

  /** Reference semantics of one driver invocation. */
  function Drive(rule: TallyRule, steps: seq<StepPair>, roundLimit: int): Result<Outcome, DriverError> {
    var n := Available(steps, roundLimit);
    var k := FirstStop(steps, 0, n);
    if k < n then
      if TerminationTest(steps[k]) == Crash then Failure(MissingUserMessage(k))
      else Success(OutcomeOf(rule, steps[..k + 1]))
    else if n < roundLimit then Failure(StepRaised(n))
    else if n == 0 then Failure(EmptyHistory)
    else Success(OutcomeOf(rule, steps[..n]))
  }

  /** How many times the society's step is called. */
  function StepCalls(steps: seq<StepPair>, roundLimit: int): nat {
    var n := Available(steps, roundLimit);
    var k := FirstStop(steps, 0, n);
    if k < n then k + 1
    else if n < roundLimit then n + 1
    else n
  }

  /** The first non-continuing round is determined by the verdicts alone. */
  lemma {:induction false} FirstStopIs(steps: seq<StepPair>, from: nat, bound: nat, k: nat)
    requires from <= k <= bound <= |steps|
    requires forall i :: from <= i < k ==> TerminationTest(steps[i]) == Continue
    requires k == bound || TerminationTest(steps[k]) != Continue
    ensures FirstStop(steps, from, bound) == k
    decreases bound - from
  {
    if from < k {
      FirstStopIs(steps, from + 1, bound, k);
    }
  }

  /**
   * A round `k` within the limit, preceded only by continuing rounds, whose
   * test says Stop ends the conversation with exactly `k + 1` records.
   */
  lemma StopsAt(rule: TallyRule, steps: seq<StepPair>, roundLimit: int, k: nat)
    requires k < roundLimit && k < |steps|
    requires forall i :: 0 <= i < k ==> TerminationTest(steps[i]) == Continue
    requires TerminationTest(steps[k]) == Stop
    ensures Drive(rule, steps, roundLimit) == Success(OutcomeOf(rule, steps[..k + 1]))
    ensures StepCalls(steps, roundLimit) == k + 1
  {
    FirstStopIs(steps, 0, Available(steps, roundLimit), k);
  }

  /** A round `k` whose test reads an absent user message ends the invocation with that error. */
  lemma CrashesAt(rule: TallyRule, steps: seq<StepPair>, roundLimit: int, k: nat)
    requires k < roundLimit && k < |steps|
    requires forall i :: 0 <= i < k ==> TerminationTest(steps[i]) == Continue
    requires TerminationTest(steps[k]) == Crash
    ensures Drive(rule, steps, roundLimit) == Failure(MissingUserMessage(k))
    ensures StepCalls(steps, roundLimit) == k + 1
  {
    FirstStopIs(steps, 0, Available(steps, roundLimit), k);
  }

  /** When every available round continues and more rounds are allowed, the next step call raises. */
  lemma RaisesAfterLastStep(rule: TallyRule, steps: seq<StepPair>, roundLimit: int)
    requires |steps| < roundLimit
    requires forall i :: 0 <= i < |steps| ==> TerminationTest(steps[i]) == Continue
    ensures Drive(rule, steps, roundLimit) == Failure(StepRaised(|steps|))
    ensures StepCalls(steps, roundLimit) == |steps| + 1
  {
    FirstStopIs(steps, 0, |steps|, |steps|);
  }

  /** When no round within the limit stops, exactly `roundLimit` rounds run (or none, for a non-positive limit). */
  lemma RunsToLimit(rule: TallyRule, steps: seq<StepPair>, roundLimit: int)
    requires roundLimit <= |steps|
    requires forall i :: 0 <= i < roundLimit ==> TerminationTest(steps[i]) == Continue
    ensures roundLimit <= 0 ==> Drive(rule, steps, roundLimit) == Failure(EmptyHistory)
    ensures roundLimit > 0 ==> Drive(rule, steps, roundLimit) == Success(OutcomeOf(rule, steps[..roundLimit]))
    ensures StepCalls(steps, roundLimit) == Available(steps, roundLimit)
  {
    var n := Available(steps, roundLimit);
    FirstStopIs(steps, 0, n, n);
  }

  /**
   * Everything a successful invocation promises: between one and
   * `roundLimit` records, one per executed round in round order holding
   * that round's texts and tool calls; every round but the last continued,
   * and the last one stopped or was the last the limit allows; the answer is
   * the last record's assistant text; the tally covers exactly those rounds.
   */
  lemma SuccessShape(rule: TallyRule, steps: seq<StepPair>, roundLimit: int)
    requires Drive(rule, steps, roundLimit).Success?
    ensures var o := Drive(rule, steps, roundLimit).value;
      && 1 <= |o.history| <= roundLimit
      && |o.history| <= |steps|
      && |o.history| == StepCalls(steps, roundLimit)
      && (forall i :: 0 <= i < |o.history| ==>
            && o.history[i].user == Content(steps[i].user)
            && o.history[i].assistant == Content(steps[i].assistant)
            && o.history[i].toolCalls == ListedCalls(steps[i].assistant))
      && (forall i :: 0 <= i < |o.history| - 1 ==> TerminationTest(steps[i]) == Continue)
      && (TerminationTest(steps[|o.history| - 1]) == Stop || |o.history| == roundLimit)
      && TerminationTest(steps[|o.history| - 1]) != Crash
      && o.answer == o.history[|o.history| - 1].assistant
      && o.answer == Content(steps[|o.history| - 1].assistant)
      && o.tokens == TallyOf(rule, steps[..|o.history|])
  {
    var n := Available(steps, roundLimit);
    var k := FirstStop(steps, 0, n);
    var m := if k < n then k + 1 else n;
    assert Drive(rule, steps, roundLimit) == Success(OutcomeOf(rule, steps[..m]));
    var o := OutcomeOf(rule, steps[..m]);
    assert |o.history| == m;
    assert forall i :: 0 <= i < m ==> o.history[i] == RecordOf(steps[i]);
  }

  /** The missing-history error arises exactly when the round limit allows no round. */
  lemma EmptyHistoryIffNoRounds(rule: TallyRule, steps: seq<StepPair>, roundLimit: int)
    ensures Drive(rule, steps, roundLimit) == Failure(EmptyHistory) <==> roundLimit <= 0
  {
    if roundLimit <= 0 {
      RunsToLimit(rule, steps, roundLimit);
    }
  }

  /**
   * A step that raised is reported exactly when every available response
   * pair continued and the limit asked for one more round.
   */
  lemma StepRaisedIff(rule: TallyRule, steps: seq<StepPair>, roundLimit: int, r: nat)
    ensures Drive(rule, steps, roundLimit) == Failure(StepRaised(r))
            <==> && r == |steps| < roundLimit
                 && forall i :: 0 <= i < |steps| ==> TerminationTest(steps[i]) == Continue
  {
    if r == |steps| < roundLimit && forall i :: 0 <= i < |steps| ==> TerminationTest(steps[i]) == Continue {
      RaisesAfterLastStep(rule, steps, roundLimit);
    }
  }

  /**
   * The absent-user-message error is reported for round `k` exactly when
   * `k` is within the limit, every earlier round continued, and round `k`
   * set neither termination flag and carried no user message.
   */
  lemma MissingUserMessageIff(rule: TallyRule, steps: seq<StepPair>, roundLimit: int, k: nat)
    ensures Drive(rule, steps, roundLimit) == Failure(MissingUserMessage(k))
            <==> && k < roundLimit && k < |steps|
                 && (forall i :: 0 <= i < k ==> TerminationTest(steps[i]) == Continue)
                 && !steps[k].assistant.terminated && !steps[k].user.terminated
                 && steps[k].user.msg.None?
  {
    if && k < roundLimit && k < |steps|
       && (forall i :: 0 <= i < k ==> TerminationTest(steps[i]) == Continue)
       && !steps[k].assistant.terminated && !steps[k].user.terminated
       && steps[k].user.msg.None?
    {
      CrashesAt(rule, steps, roundLimit, k);
    }
  }

  /**
   * The conversation is sequential and stops for good: responses the society
   * would have given after the last executed step do not affect the result.
   */
  lemma LaterStepsIgnored(rule: TallyRule, steps: seq<StepPair>, more: seq<StepPair>, roundLimit: int)
    requires StepCalls(steps, roundLimit) <= |steps|
    ensures Drive(rule, steps + more, roundLimit) == Drive(rule, steps, roundLimit)
  {
    var all := steps + more;
    var n := Available(steps, roundLimit);
    var k := FirstStop(steps, 0, n);
    assert forall i :: 0 <= i < |steps| ==> all[i] == steps[i];
    if k < n {
      if TerminationTest(steps[k]) == Crash {
        CrashesAt(rule, steps, roundLimit, k);
        CrashesAt(rule, all, roundLimit, k);
      } else {
        StopsAt(rule, steps, roundLimit, k);
        StopsAt(rule, all, roundLimit, k);
        assert all[..k + 1] == steps[..k + 1];
      }
    } else {
      RunsToLimit(rule, steps, roundLimit);
      RunsToLimit(rule, all, roundLimit);
      if roundLimit > 0 {
        assert all[..roundLimit] == steps[..roundLimit];
      }
    }
  }

  /**
   * The round limit bounds the work: the society's step is called at most
   * `roundLimit` times (never, for a non-positive limit), and at most once
   * past the responses available.
   */
  lemma StepCallsBounded(steps: seq<StepPair>, roundLimit: int)
    ensures StepCalls(steps, roundLimit) <= if roundLimit < 0 then 0 else roundLimit
    ensures StepCalls(steps, roundLimit) <= |steps| + 1
  {
  }

  /** Appending one round's record extends the history of the earlier rounds. */
  lemma RecordsAppend(ps: seq<StepPair>, p: StepPair)
    ensures Records(ps + [p]) == Records(ps) + [RecordOf(p)]
  {
  }

  /**
   * The messages fed into the step calls so far: the initial message, then
   * the assistant's message of each earlier round.
   */
  predicate FedBy(inputs: seq<Option<Message>>, initMsg: Option<Message>, steps: seq<StepPair>) {
    && |inputs| <= |steps| + 1
    && (|inputs| > 0 ==> inputs[0] == initMsg)
    && forall j :: 0 < j < |inputs| ==> inputs[j] == steps[j - 1].assistant.msg
  }

  /** Feeding round `|inputs|` its message keeps the feedback relation. */
  lemma FedByAppend(inputs: seq<Option<Message>>, initMsg: Option<Message>, steps: seq<StepPair>, m: Option<Message>)
    requires FedBy(inputs, initMsg, steps)
    requires |inputs| <= |steps|
    requires m == if |inputs| == 0 then initMsg else steps[|inputs| - 1].assistant.msg
    ensures FedBy(inputs + [m], initMsg, steps)
  {
  }

  /**
   * The loop shared by both copies of the driver: one step per round, the
   * usage tally under `rule`, one history record per round, stopping on the
   * first round whose test does not say Continue or at the round limit, and
   * the last record's assistant text as the answer.
   */
  method RunRounds(rule: TallyRule, initMsg: Option<Message>, steps: seq<StepPair>, roundLimit: int)
    returns (res: Result<Outcome, DriverError>, inputs: seq<Option<Message>>)
    ensures res == Drive(rule, steps, roundLimit)
    ensures StepCalls(steps, roundLimit) <= |steps| + 1
    ensures |inputs| == StepCalls(steps, roundLimit)
    ensures |inputs| <= if roundLimit < 0 then 0 else roundLimit
    ensures |inputs| > 0 ==> inputs[0] == initMsg
    ensures forall j :: 0 < j < |inputs| ==> inputs[j] == steps[j - 1].assistant.msg
  {
    StepCallsBounded(steps, roundLimit);
    var tokens := NoTokens;
    var history: seq<RoundRecord> := [];
    var inputMsg := initMsg;
    inputs := [];
    var round := 0;
    while round < roundLimit
      invariant 0 <= round <= |steps|
      invariant round == 0 || round <= roundLimit
      invariant forall i :: 0 <= i < round ==> TerminationTest(steps[i]) == Continue
      invariant history == Records(steps[..round])
      invariant tokens == TallyOf(rule, steps[..round])
      invariant |inputs| == round
      invariant FedBy(inputs, initMsg, steps)
      invariant inputMsg == if round == 0 then initMsg else steps[round - 1].assistant.msg
    {
      FedByAppend(inputs, initMsg, steps, inputMsg);
      inputs := inputs + [inputMsg];
      if round >= |steps| {
        RaisesAfterLastStep(rule, steps, roundLimit);
        return Failure(StepRaised(round)), inputs;
      }
      var pair := steps[round];
      var assistant, user := pair.assistant, pair.user;

      tokens := AddRound(rule, tokens, pair);
      TallyAppend(rule, steps[..round], pair);

      var toolCallRecords := ExtractToolCalls(assistant);
      RecordsAppend(steps[..round], pair);
      history := history + [RoundRecord(Content(user), Content(assistant), toolCallRecords)];
      assert steps[..round + 1] == steps[..round] + [pair];

      var verdict := TerminationTest(pair);

      if verdict == Stop {
        StopsAt(rule, steps, roundLimit, round);
        break;
      } else if verdict == Crash {
        CrashesAt(rule, steps, roundLimit, round);
        return Failure(MissingUserMessage(round)), inputs;
      }

      inputMsg := assistant.msg;
      round := round + 1;
    }
    if round == roundLimit || roundLimit <= 0 {
      RunsToLimit(rule, steps, roundLimit);
    }

    if |history| == 0 {
      return Failure(EmptyHistory), inputs;
    }
    var answer := history[|history| - 1].assistant;
    res := Success(Outcome(answer, history, tokens));
  }

  /**
   * `run_society`: the synchronous driver. On success the answer is the last
   * record's assistant text and the tally sums both roles' completion and
   * prompt tokens over the executed rounds in which both report usage.
   */
  method RunSociety(initMsg: Option<Message>, steps: seq<StepPair>, roundLimit: int := 15)
    returns (res: Result<Outcome, DriverError>, inputs: seq<Option<Message>>)
    ensures res == Drive(SyncRule, steps, roundLimit)
    ensures res.Success? ==> 1 <= |res.value.history| <= roundLimit
    ensures res.Success? ==> res.value.answer == res.value.history[|res.value.history| - 1].assistant
    ensures res.Success? ==>
      var ran := steps[..|res.value.history|];
      && res.value.tokens.completion
         == Counted(ran, AssistantRole, CompletionField) + Counted(ran, UserRole, CompletionField)
      && res.value.tokens.prompt
         == Counted(ran, AssistantRole, PromptField) + Counted(ran, UserRole, PromptField)
    ensures |inputs| == StepCalls(steps, roundLimit)
    ensures |inputs| <= if roundLimit < 0 then 0 else roundLimit
    ensures |inputs| > 0 ==> inputs[0] == initMsg
    ensures forall j :: 0 < j < |inputs| ==> inputs[j] == steps[j - 1].assistant.msg
  {
    res, inputs := RunRounds(SyncRule, initMsg, steps, roundLimit);
    if res.Success? {
      SuccessShape(SyncRule, steps, roundLimit);
      SyncTallyIsPerRoleSum(steps[..|res.value.history|]);
    }
  }

  /**
   * `arun_society`: the asynchronous driver, the same loop with the
   * asynchronous copy's tally: the completion count stays 0, and the prompt
   * count sums the assistant's completion and prompt tokens and the user's
   * prompt tokens over the executed rounds in which both report usage.
   */
  method ARunSociety(initMsg: Option<Message>, steps: seq<StepPair>, roundLimit: int := 15)
    returns (res: Result<Outcome, DriverError>, inputs: seq<Option<Message>>)
    ensures res == Drive(AsyncRule, steps, roundLimit)
    ensures res.Success? ==> 1 <= |res.value.history| <= roundLimit
    ensures res.Success? ==> res.value.answer == res.value.history[|res.value.history| - 1].assistant
    ensures res.Success? ==> res.value.tokens.completion == 0
    ensures res.Success? ==>
      var ran := steps[..|res.value.history|];
      res.value.tokens.prompt
      == Counted(ran, AssistantRole, CompletionField) + Counted(ran, AssistantRole, PromptField)
         + Counted(ran, UserRole, PromptField)
    ensures |inputs| == StepCalls(steps, roundLimit)
    ensures |inputs| <= if roundLimit < 0 then 0 else roundLimit
    ensures |inputs| > 0 ==> inputs[0] == initMsg
    ensures forall j :: 0 < j < |inputs| ==> inputs[j] == steps[j - 1].assistant.msg
  {
    res, inputs := RunRounds(AsyncRule, initMsg, steps, roundLimit);
    if res.Success? {
      SuccessShape(AsyncRule, steps, roundLimit);
      AsyncTallyIsPerRoleSum(steps[..|res.value.history|]);
    }
  }
}
