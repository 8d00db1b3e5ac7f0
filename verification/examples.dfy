/** Concrete conversations illustrating the driver's stopping rule and the two tallies. */
module DriverExamples {
  import opened Wrappers
  import opened Messages
  import opened Tally
  import opened Driver

  /** A response with the given text, usage and termination flag, and no tool calls. */
  function Reply(text: string, usage: Option<Usage>, terminated: bool): Response {
    Response(Some(Message(text)), usage, None, terminated)
  }

  /**
   * With a round limit of 3 and an assistant that declares itself terminated
   * in the second round, two rounds run and the answer is the second
   * assistant text.
   */
  lemma AssistantTerminatesInSecondRound(steps: seq<StepPair>)
    requires |steps| == 3
    requires steps[0] == StepPair(Reply("step one", None, false), Reply("go on", None, false))
    requires steps[1] == StepPair(Reply("final", None, true), Reply("thanks", None, false))
    ensures Drive(SyncRule, steps, 3).Success?
    ensures |Drive(SyncRule, steps, 3).value.history| == 2
    ensures Drive(SyncRule, steps, 3).value.answer == "final"
  {
    assert TerminationTest(steps[0]) == Continue by {
      assert !Text.OccursAt("go on", TaskDoneMarker, 0);
    }
    StopsAt(SyncRule, steps, 3, 1);
    SuccessShape(SyncRule, steps, 3);
  }

  /**
   * A user message containing the sentinel in the first round ends the
   * conversation after that round, whatever the default limit of 15 allows.
   */
  lemma SentinelInFirstRound(steps: seq<StepPair>)
    requires |steps| >= 1
    requires steps[0] == StepPair(Reply("answer", None, false), Reply("TASK_DONE", None, false))
    ensures Drive(SyncRule, steps, 15).Success?
    ensures |Drive(SyncRule, steps, 15).value.history| == 1
    ensures Drive(SyncRule, steps, 15).value.answer == "answer"
  {
    assert Text.OccursAt("TASK_DONE", TaskDoneMarker, 0);
    StopsAt(SyncRule, steps, 15, 0);
    SuccessShape(SyncRule, steps, 15);
  }

  /** The usage reported by the example round below. */
  const AssistantUsage := Usage(Some(5), Some(7), 0)
  const UserUsage := Usage(Some(3), Some(11), 0)

  /**
   * One round in which the assistant reports 5 completion and 7 prompt
   * tokens and the user 3 and 11: the synchronous copy tallies 8 and 18, the
   * asynchronous copy 0 and 23.
   */
  lemma TalliesDiverge(p: StepPair)
    requires p.assistant.usage == Some(AssistantUsage) && p.user.usage == Some(UserUsage)
    ensures TallyOf(SyncRule, [p]) == TokenTally(8, 18)
    ensures TallyOf(AsyncRule, [p]) == TokenTally(0, 23)
  {
    assert BothReport(p);
    TallyOfOne(SyncRule, p);
    TallyOfOne(AsyncRule, p);
  }
}
