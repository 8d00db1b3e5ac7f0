/**
 * Token accounting of the conversation driver. The synchronous and the
 * asynchronous copies of the driver add different quantities per round; both
 * are kept here as written, and the lemmas state each one's totals in terms
 * of independent per-role sums.
 */
module Tally {
  import opened Messages

  /** Which copy of the driver's per-round arithmetic applies. */
  datatype TallyRule = SyncRule | AsyncRule

  /** The accumulated `completion_token_count` and `prompt_token_count`. */
  datatype TokenTally = TokenTally(completion: nat, prompt: nat)

  const NoTokens := TokenTally(0, 0)

  /** A round adds to the tally only when both responses report usage. */
  predicate BothReport(p: StepPair) {
    UsageReported(p.assistant) && UsageReported(p.user)
  }

  /**
   * What one round adds to the completion total: both roles' completion
   * counts in the synchronous copy, nothing in the asynchronous copy.
   */
  function CompletionDelta(rule: TallyRule, p: StepPair): nat {
    if !BothReport(p) then 0
    else
      match rule
      case SyncRule => Tokens(p.assistant, CompletionField) + Tokens(p.user, CompletionField)
      case AsyncRule => 0
  }

  /**
   * What one round adds to the prompt total: both roles' prompt counts in the
   * synchronous copy; in the asynchronous copy the assistant's completion
   * count first, then both prompt counts. The user's completion count is
   * never read there.
   */
  function PromptDelta(rule: TallyRule, p: StepPair): nat {
    if !BothReport(p) then 0
    else
      match rule
      case SyncRule => Tokens(p.assistant, PromptField) + Tokens(p.user, PromptField)
      case AsyncRule =>
        Tokens(p.assistant, CompletionField) + (Tokens(p.assistant, PromptField) + Tokens(p.user, PromptField))
  }

  /** The tally `t` after one more round `p`. */
  function AddRound(rule: TallyRule, t: TokenTally, p: StepPair): TokenTally {
    TokenTally(t.completion + CompletionDelta(rule, p), t.prompt + PromptDelta(rule, p))
  }

  /** Neither count of `t` exceeds the corresponding count of `u`. */
  predicate AtMost(t: TokenTally, u: TokenTally) {
    t.completion <= u.completion && t.prompt <= u.prompt
  }

  /** The tally after the rounds `ps`, accumulated in round order as the driver does. */
  function TallyOf(rule: TallyRule, ps: seq<StepPair>): TokenTally
    decreases |ps|
  {
    if |ps| == 0 then NoTokens
    else AddRound(rule, TallyOf(rule, ps[..|ps| - 1]), ps[|ps| - 1])
  }

  /** The count `field` of `role` that round `p` contributes to a per-role sum. */
  function Share(p: StepPair, role: Role, field: TokenField): nat {
    if BothReport(p) then Tokens(Side(p, role), field) else 0
  }

  /** Reference sum: the `field` count of `role` over every round of `ps` in which both sides report usage. */
  function Counted(ps: seq<StepPair>, role: Role, field: TokenField): nat
    decreases |ps|
  {
    if |ps| == 0 then 0 else Share(ps[0], role, field) + Counted(ps[1..], role, field)
  }

  /** The rounds of `ps` in which both sides report usage, in order. */
  function ReportedRounds(ps: seq<StepPair>): (r: seq<StepPair>)
    ensures |r| <= |ps|
    ensures forall i :: 0 <= i < |r| ==> BothReport(r[i])
    decreases |ps|
  {
    if |ps| == 0 then []
    else if BothReport(ps[|ps| - 1]) then ReportedRounds(ps[..|ps| - 1]) + [ps[|ps| - 1]]
    else ReportedRounds(ps[..|ps| - 1])
  }

  /** Accumulating one more round adds exactly that round's deltas. */
  lemma TallyAppend(rule: TallyRule, ps: seq<StepPair>, p: StepPair)
    ensures TallyOf(rule, ps + [p]) == AddRound(rule, TallyOf(rule, ps), p)
  {
    var q := ps + [p];
    assert q[..|q| - 1] == ps;
    assert q[|q| - 1] == p;
  }

  /** A single round's tally is that round's deltas. */
  lemma TallyOfOne(rule: TallyRule, p: StepPair)
    ensures TallyOf(rule, [p]).completion == CompletionDelta(rule, p)
    ensures TallyOf(rule, [p]).prompt == PromptDelta(rule, p)
  {
    assert [p][..0] == [];
  }

  /** A round in which either side lacks usage leaves the tally unchanged. */
  lemma UnreportedRoundAddsNothing(rule: TallyRule, ps: seq<StepPair>, p: StepPair)
    requires !BothReport(p)
    ensures TallyOf(rule, ps + [p]) == TallyOf(rule, ps)
  {
    TallyAppend(rule, ps, p);
  }

  /** The tally depends only on the rounds that report usage on both sides. */
  lemma {:induction false} OnlyReportedRoundsCount(rule: TallyRule, ps: seq<StepPair>)
    ensures TallyOf(rule, ps) == TallyOf(rule, ReportedRounds(ps))
    decreases |ps|
  {
    if |ps| > 0 {
      var init, last := ps[..|ps| - 1], ps[|ps| - 1];
      OnlyReportedRoundsCount(rule, init);
      TallyAppend(rule, init, last);
      if BothReport(last) {
        TallyAppend(rule, ReportedRounds(init), last);
      }
    }
  }

  /** Counts never decrease as rounds are added: the tally of a prefix is at most the tally of a longer prefix. */
  lemma {:induction false} TallyMonotone(rule: TallyRule, ps: seq<StepPair>, i: nat, j: nat)
    requires i <= j <= |ps|
    ensures AtMost(TallyOf(rule, ps[..i]), TallyOf(rule, ps[..j]))
    decreases j - i
  {
    if i < j {
      TallyMonotone(rule, ps, i, j - 1);
      assert ps[..j][..j - 1] == ps[..j - 1];
    }
  }

  /** The reference sum extended by one round at the end. */
  lemma {:induction false} CountedAppend(ps: seq<StepPair>, p: StepPair, role: Role, field: TokenField)
    ensures Counted(ps + [p], role, field) == Counted(ps, role, field) + Share(p, role, field)
    decreases |ps|
  {
    if |ps| == 0 {
      assert ([] + [p])[1..] == [];
    } else {
      assert (ps + [p])[1..] == ps[1..] + [p];
      CountedAppend(ps[1..], p, role, field);
    }
  }

  /** Splits a non-empty sequence of rounds into its init and its last round. */
  lemma SplitLast(ps: seq<StepPair>)
    requires |ps| > 0
    ensures ps == ps[..|ps| - 1] + [ps[|ps| - 1]]
  {
  }

  /**
   * Synchronous copy: the completion count is the sum of assistant and user
   * completion tokens, and the prompt count the sum of assistant and user
   * prompt tokens, over the rounds where both sides report usage.
   */
  lemma {:induction false} SyncTallyIsPerRoleSum(ps: seq<StepPair>)
    ensures TallyOf(SyncRule, ps).completion
            == Counted(ps, AssistantRole, CompletionField) + Counted(ps, UserRole, CompletionField)
    ensures TallyOf(SyncRule, ps).prompt
            == Counted(ps, AssistantRole, PromptField) + Counted(ps, UserRole, PromptField)
    decreases |ps|
  {
    if |ps| > 0 {
      var init, last := ps[..|ps| - 1], ps[|ps| - 1];
      SyncTallyIsPerRoleSum(init);
      SplitLast(ps);
      CountedAppend(init, last, AssistantRole, CompletionField);
      CountedAppend(init, last, UserRole, CompletionField);
      CountedAppend(init, last, AssistantRole, PromptField);
      CountedAppend(init, last, UserRole, PromptField);
    }
  }

  /**
   * Asynchronous copy: the completion count stays 0, and the prompt count is
   * the assistant's completion and prompt tokens plus the user's prompt
   * tokens, over the rounds where both sides report usage; the user's
   * completion tokens are never counted.
   */
  lemma {:induction false} AsyncTallyIsPerRoleSum(ps: seq<StepPair>)
    ensures TallyOf(AsyncRule, ps).completion == 0
    ensures TallyOf(AsyncRule, ps).prompt
            == Counted(ps, AssistantRole, CompletionField) + Counted(ps, AssistantRole, PromptField)
               + Counted(ps, UserRole, PromptField)
    decreases |ps|
  {
    if |ps| > 0 {
      var init, last := ps[..|ps| - 1], ps[|ps| - 1];
      AsyncTallyIsPerRoleSum(init);
      SplitLast(ps);
      CountedAppend(init, last, AssistantRole, CompletionField);
      CountedAppend(init, last, AssistantRole, PromptField);
      CountedAppend(init, last, UserRole, PromptField);
    }
  }

  /**
   * The divergence between the copies: the asynchronous prompt count equals
   * the synchronous completion-plus-prompt total minus the user's completion
   * tokens, which only the synchronous copy counts.
   */
  lemma AsyncVersusSync(ps: seq<StepPair>)
    ensures TallyOf(AsyncRule, ps).prompt + Counted(ps, UserRole, CompletionField)
            == TallyOf(SyncRule, ps).completion + TallyOf(SyncRule, ps).prompt
  {
    SyncTallyIsPerRoleSum(ps);
    AsyncTallyIsPerRoleSum(ps);
  }
}
