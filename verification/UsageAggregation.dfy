/** Usage of run attempts, summed over their steps. */
module UsageAggregation {
  import opened Common

  datatype StepKind = MODEL | TOOL | OTHER
  datatype StepStatus = RUNNING | SUCCEEDED | FAILED

  /** Absent numbers are `None`; an absent and a null cost are alike. */
  datatype RunStep = RunStep(
    runAttemptId: string,
    kind: StepKind,
    status: StepStatus,
    inputTokens: Option<int>,
    outputTokens: Option<int>,
    totalTokens: Option<int>,
    cachedInputTokens: Option<int>,
    costUsdMicros: Option<int>)

  datatype Usage = Usage(
    modelCalls: int,
    toolCalls: int,
    inputTokens: int,
    outputTokens: int,
    totalTokens: int,
    cachedInputTokens: int,
    costUsdMicros: Option<int>,
    pricedModelCalls: int,
    unpricedModelCalls: int)

  const NO_USAGE := Usage(0, 0, 0, 0, 0, 0, None, 0, 0)

  function OrZero(n: Option<int>): int {
    if n.Some? then n.value else 0
  }

  predicate Measurable(s: RunStep) {
    s.kind == MODEL && (s.status == SUCCEEDED
      || (s.status == FAILED && (OrZero(s.inputTokens) > 0 || OrZero(s.outputTokens) > 0 || s.costUsdMicros.Some?)))
  }

  /** What one step contributes. */
  function UsageOf(s: RunStep): Usage {
    if s.kind == TOOL && s.status == SUCCEEDED then NO_USAGE.(toolCalls := 1)
    else if !Measurable(s) then NO_USAGE
    else Usage(1, 0, OrZero(s.inputTokens), OrZero(s.outputTokens), OrZero(s.totalTokens), OrZero(s.cachedInputTokens),
               s.costUsdMicros, if s.costUsdMicros.Some? then 1 else 0, if s.costUsdMicros.Some? then 0 else 1)
  }

  /** Two costs together: null only if both are. */
  function AddCost(a: Option<int>, b: Option<int>): Option<int> {
    if a.None? then b else if b.None? then a else Some(a.value + b.value)
  }

  function Add(a: Usage, b: Usage): Usage {
    Usage(a.modelCalls + b.modelCalls, a.toolCalls + b.toolCalls,
          a.inputTokens + b.inputTokens, a.outputTokens + b.outputTokens,
          a.totalTokens + b.totalTokens, a.cachedInputTokens + b.cachedInputTokens,
          AddCost(a.costUsdMicros, b.costUsdMicros),
          a.pricedModelCalls + b.pricedModelCalls, a.unpricedModelCalls + b.unpricedModelCalls)
  }

  /** The usage of the steps that belong to the attempts, in the order of the steps. */
  function Total(steps: seq<RunStep>, attempts: set<string>): Usage {
    if steps == [] then NO_USAGE
    else
      var last := steps[|steps| - 1];
      var before := Total(steps[..|steps| - 1], attempts);
      if last.runAttemptId in attempts then Add(before, UsageOf(last)) else before
  }

  lemma LastStep(steps: seq<RunStep>, attempts: set<string>)
    requires steps != []
    ensures var front, last := steps[..|steps| - 1], steps[|steps| - 1];
      Total(steps, attempts) ==
        if last.runAttemptId in attempts then Add(Total(front, attempts), UsageOf(last)) else Total(front, attempts)
  {
  }

  lemma TotalNext(steps: seq<RunStep>, i: nat, attempts: set<string>)
    requires i < |steps|
    ensures Total(steps[..i + 1], attempts) ==
      if steps[i].runAttemptId in attempts then Add(Total(steps[..i], attempts), UsageOf(steps[i])) else Total(steps[..i], attempts)
  {
    assert steps[..i + 1][..i] == steps[..i];
  }

  lemma AddingCommutes(a: Usage, b: Usage, u: Usage)
    ensures Add(Add(a, b), u) == Add(Add(a, u), b) == Add(a, Add(b, u))
  {
  }

  method AggregateRunAttemptUsageBatch(steps: seq<RunStep>, runAttemptIds: seq<string>) returns (r: Usage)
    ensures r == Total(steps, set id | id in runAttemptIds)
  {
    if |runAttemptIds| == 0 {
      NobodyUsesNothing(steps, set id | id in runAttemptIds);
      return NO_USAGE;
    }
    var attemptIdSet := set id | id in runAttemptIds;
    var modelCalls, toolCalls, priced, unpriced := 0, 0, 0, 0;
    var inputTokens, outputTokens, totalTokens, cachedInputTokens, cost := 0, 0, 0, 0, 0;
    var hasPricedCost := false;
    for i := 0 to |steps|
      invariant !hasPricedCost ==> cost == 0
      invariant Total(steps[..i], attemptIdSet) ==
        Usage(modelCalls, toolCalls, inputTokens, outputTokens, totalTokens, cachedInputTokens,
              if hasPricedCost then Some(cost) else None, priced, unpriced)
    {
      var step := steps[i];
      TotalNext(steps, i, attemptIdSet);
      if step.runAttemptId !in attemptIdSet { continue; }
      if step.kind == TOOL && step.status == SUCCEEDED {
        toolCalls := toolCalls + 1;
        continue;
      }
      if !Measurable(step) { continue; }
      modelCalls := modelCalls + 1;
      inputTokens := inputTokens + OrZero(step.inputTokens);
      outputTokens := outputTokens + OrZero(step.outputTokens);
      totalTokens := totalTokens + OrZero(step.totalTokens);
      cachedInputTokens := cachedInputTokens + OrZero(step.cachedInputTokens);
      if step.costUsdMicros.None? {
        unpriced := unpriced + 1;
      } else {
        priced := priced + 1;
        hasPricedCost := true;
        cost := cost + step.costUsdMicros.value;
      }
    }
    assert steps[..|steps|] == steps;
    return Usage(modelCalls, toolCalls, inputTokens, outputTokens, totalTokens, cachedInputTokens,
                 if hasPricedCost then Some(cost) else None, priced, unpriced);
  }

  lemma {:induction false} NobodyUsesNothing(steps: seq<RunStep>, attempts: set<string>)
    requires attempts == {}
    ensures Total(steps, attempts) == NO_USAGE
  {
    if steps != [] {
      NobodyUsesNothing(steps[..|steps| - 1], attempts);
    }
  }

  /** The usage of disjoint sets of attempts adds up, field by field. */
  lemma {:induction false} DisjointAttemptsAddUp(steps: seq<RunStep>, a: set<string>, b: set<string>)
    requires a !! b
    ensures Total(steps, a + b) == Add(Total(steps, a), Total(steps, b))
  {
    if steps != [] {
      var front, last := steps[..|steps| - 1], steps[|steps| - 1];
      DisjointAttemptsAddUp(front, a, b);
      LastStep(steps, a);
      LastStep(steps, b);
      LastStep(steps, a + b);
      AddingCommutes(Total(front, a), Total(front, b), UsageOf(last));
    }
  }

  /** Every measured model call is priced or not, and the cost is null exactly when none is priced. */
  lemma {:induction false} PricedAndUnpricedAreAll(steps: seq<RunStep>, attempts: set<string>)
    ensures var u := Total(steps, attempts);
      u.pricedModelCalls >= 0 && u.pricedModelCalls + u.unpricedModelCalls == u.modelCalls && (u.costUsdMicros.None? <==> u.pricedModelCalls == 0)
  {
    if steps != [] {
      PricedAndUnpricedAreAll(steps[..|steps| - 1], attempts);
    }
  }

  // ---- Field by field ----

  /** The sum of one number over the steps of the attempts. */
  function Sum(steps: seq<RunStep>, attempts: set<string>, number: RunStep -> int): int {
    if steps == [] then 0
    else Sum(steps[1..], attempts, number) + if steps[0].runAttemptId in attempts then number(steps[0]) else 0
  }

  lemma {:induction false} SumOfLast(steps: seq<RunStep>, attempts: set<string>, number: RunStep -> int)
    requires steps != []
    ensures var last := steps[|steps| - 1];
      Sum(steps, attempts, number)
        == Sum(steps[..|steps| - 1], attempts, number) + if last.runAttemptId in attempts then number(last) else 0
  {
    if |steps| > 1 {
      SumOfLast(steps[1..], attempts, number);
      assert steps[1..][..|steps| - 2] == steps[..|steps| - 1][1..];
    }
  }

  /** A model step that succeeded, or failed with tokens or a cost to show for it. */
  predicate Measured(s: RunStep) {
    && s.kind == MODEL
    && (s.status == SUCCEEDED
        || (s.status == FAILED
            && (s.costUsdMicros.Some?
                || (s.inputTokens.Some? && s.inputTokens.value > 0) || (s.outputTokens.Some? && s.outputTokens.value > 0))))
  }

  /** A number of a measured step, absent ones counting as nothing. */
  function Of(s: RunStep, n: Option<int>): int {
    if Measured(s) && n.Some? then n.value else 0
  }

  /**
   * Every field of the summary is the sum of its own numbers: tokens of each sort over the measured model
   * steps, which are counted, priced where they have a cost; and tool steps that succeeded.
   */
  lemma {:induction false} SummaryIsFieldwise(steps: seq<RunStep>, attempts: set<string>)
    ensures var u := Total(steps, attempts);
      && u.modelCalls == Sum(steps, attempts, (s: RunStep) => if Measured(s) then 1 else 0)
      && u.toolCalls == Sum(steps, attempts, (s: RunStep) => if s.kind == TOOL && s.status == SUCCEEDED then 1 else 0)
      && u.inputTokens == Sum(steps, attempts, (s: RunStep) => Of(s, s.inputTokens))
      && u.outputTokens == Sum(steps, attempts, (s: RunStep) => Of(s, s.outputTokens))
      && u.totalTokens == Sum(steps, attempts, (s: RunStep) => Of(s, s.totalTokens))
      && u.cachedInputTokens == Sum(steps, attempts, (s: RunStep) => Of(s, s.cachedInputTokens))
      && u.pricedModelCalls == Sum(steps, attempts, (s: RunStep) => if Measured(s) && s.costUsdMicros.Some? then 1 else 0)
      && u.unpricedModelCalls == Sum(steps, attempts, (s: RunStep) => if Measured(s) && s.costUsdMicros.None? then 1 else 0)
      && (u.costUsdMicros.Some? ==> u.costUsdMicros.value == Sum(steps, attempts, (s: RunStep) => Of(s, s.costUsdMicros)))
      && (u.costUsdMicros.None? ==> Sum(steps, attempts, (s: RunStep) => Of(s, s.costUsdMicros)) == 0)
  {
    if steps != [] {
      SummaryIsFieldwise(steps[..|steps| - 1], attempts);
      SumOfLast(steps, attempts, (s: RunStep) => if Measured(s) then 1 else 0);
      SumOfLast(steps, attempts, (s: RunStep) => if s.kind == TOOL && s.status == SUCCEEDED then 1 else 0);
      SumOfLast(steps, attempts, (s: RunStep) => Of(s, s.inputTokens));
      SumOfLast(steps, attempts, (s: RunStep) => Of(s, s.outputTokens));
      SumOfLast(steps, attempts, (s: RunStep) => Of(s, s.totalTokens));
      SumOfLast(steps, attempts, (s: RunStep) => Of(s, s.cachedInputTokens));
      SumOfLast(steps, attempts, (s: RunStep) => if Measured(s) && s.costUsdMicros.Some? then 1 else 0);
      SumOfLast(steps, attempts, (s: RunStep) => if Measured(s) && s.costUsdMicros.None? then 1 else 0);
      SumOfLast(steps, attempts, (s: RunStep) => Of(s, s.costUsdMicros));
    }
  }
}
