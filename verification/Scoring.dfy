/**
 * Bot scoring: raw counts become ratios, ratios become 0..100 component scores
 * normalised across the bots of an execution, and the components become one
 * weighted composite and a tier. Numbers are exact reals.
 */
module Scoring {
  import opened Prelude

  type BotId = string
  type ExecutionId = string

  // ----- Metrics ------------------------------------------------------------

  /** What the queries return for one bot. */
  datatype Counts = Counts(
    botId: BotId,
    tasksCompleted: nat,
    tasksFailed: nat,
    totalCostCents: int,
    totalTokens: int,
    toolCalls: nat,
    rejectedToolCalls: nat,
    botHours: real,
    avgDurationMs: real)

  datatype BotMetrics = BotMetrics(
    botId: BotId,
    tasksCompleted: nat,
    successRate: real,
    errorRate: real,
    costPerTaskCents: int,
    tokensPerTask: int,
    toolCallsPerTask: real,
    tasksPerMinute: real,
    idleRatio: real)

  function Round(x: real): int {
    (x + 0.5).Floor
  }

  function MinReal(a: real, b: real): real {
    if a < b then a else b
  }

  function MaxReal(a: real, b: real): real {
    if a > b then a else b
  }

  function Times(x: real, y: real): real {
    x * y
  }

  function Ratio(part: nat, whole: nat): real {
    if whole == 0 then 0.0 else (part as real) / (whole as real)
  }

  function IdleShare(activeMs: real, totalMs: real): real
  {
    MaxReal(0.0, MinReal(1.0, 1.0 - (if totalMs == 0.0 then 0.0 else MinReal(1.0, activeMs / totalMs))))
  }

  function ComputeBotMetrics(c: Counts): BotMetrics {
    var totalTasks := c.tasksCompleted + c.tasksFailed;
    var idle :=
      if c.botHours > 0.0 then
        IdleShare(Times(c.toolCalls as real, c.avgDurationMs), Times(c.botHours, 3_600_000.0))
      else 0.0;
    BotMetrics(
      c.botId,
      c.tasksCompleted,
      Ratio(c.tasksCompleted, totalTasks),
      Ratio(c.tasksFailed + c.rejectedToolCalls, totalTasks + c.toolCalls + c.rejectedToolCalls),
      if c.tasksCompleted == 0 then 0 else Round(c.totalCostCents as real / c.tasksCompleted as real),
      if c.tasksCompleted == 0 then 0 else Round(c.totalTokens as real / c.tasksCompleted as real),
      Ratio(c.toolCalls, c.tasksCompleted),
      if c.botHours == 0.0 then 0.0 else c.tasksCompleted as real / (c.botHours * 60.0),
      idle)
  }

  /** The ratios the score engine takes for granted. */
  predicate RatiosInRange(m: BotMetrics) {
    0.0 <= m.successRate <= 1.0 && 0.0 <= m.errorRate <= 1.0 && 0.0 <= m.idleRatio <= 1.0
  }

  lemma RatioInRange(part: nat, whole: nat)
    requires part <= whole
    ensures 0.0 <= Ratio(part, whole) <= 1.0
  {
    if whole > 0 {
      assert (part as real) / (whole as real) * (whole as real) == part as real;
    }
  }

  lemma MetricsInRange(c: Counts)
    ensures RatiosInRange(ComputeBotMetrics(c))
  {
    RatioInRange(c.tasksCompleted, c.tasksCompleted + c.tasksFailed);
    RatioInRange(c.tasksFailed + c.rejectedToolCalls,
                 c.tasksCompleted + c.tasksFailed + c.toolCalls + c.rejectedToolCalls);
  }

  /** The two rates are 0 or 1 exactly when the counts say so. */
  lemma RatesAtTheEnds(c: Counts)
    ensures
      var m := ComputeBotMetrics(c);
      && (m.successRate == 1.0 <==> c.tasksCompleted > 0 && c.tasksFailed == 0)
      && (m.successRate == 0.0 <==> c.tasksCompleted == 0)
      && (m.errorRate == 0.0 <==> c.tasksFailed == 0 && c.rejectedToolCalls == 0)
      && (m.errorRate == 1.0 <==>
            c.tasksFailed + c.rejectedToolCalls > 0 && c.tasksCompleted == 0 && c.toolCalls == 0)
  {
    RatioAtTheEnds(c.tasksCompleted, c.tasksCompleted + c.tasksFailed);
    RatioAtTheEnds(c.tasksFailed + c.rejectedToolCalls,
                   c.tasksCompleted + c.tasksFailed + c.toolCalls + c.rejectedToolCalls);
  }

  lemma RatioAtTheEnds(part: nat, whole: nat)
    requires part <= whole
    ensures Ratio(part, whole) == 0.0 <==> part == 0
    ensures Ratio(part, whole) == 1.0 <==> part == whole && whole > 0
  {
    if whole > 0 {
      assert Ratio(part, whole) * (whole as real) == part as real;
    }
  }

  /** The integer nearest to total / n, halves upward. */
  predicate IsNearest(q: int, total: int, n: nat) {
    0 <= 2 * (total - n * q) + n < 2 * n
  }

  lemma RoundIsNearest(total: int, n: nat)
    requires n > 0
    ensures IsNearest(Round(total as real / n as real), total, n)
  {
    hide Times, IsNearest, Round;
    var x := total as real / n as real;
    TimesShare(total as real, n as real);
    RoundedShare(x, total, n);
  }

  lemma TimesShare(part: real, whole: real)
    requires whole != 0.0
    ensures Times(part / whole, whole) == part
  {
  }

  lemma RoundedShare(x: real, total: int, n: nat)
    requires n > 0 && Times(x, n as real) == total as real
    ensures IsNearest(Round(x), total, n)
  {
    hide Times, IsNearest;
    var q := Round(x);
    RestInRange(x, q as real, n as real);
    ProductOfWholes(n, q, total);
  }

  lemma RestInRange(x: real, q: real, size: real)
    requires q <= x + 0.5 < q + 1.0 && size > 0.0
    ensures 0.0 <= Times(x, size) + 0.5 * size - Times(q, size) < size
  {
    var rest := x + 0.5 - q;
    var part, gap := rest * size, (1.0 - rest) * size;
    assert part >= 0.0 && gap > 0.0;
    assert part + gap == size;
    assert part == x * size + 0.5 * size - q * size;
  }

  lemma ProductOfWholes(n: nat, q: int, total: int)
    requires 0.0 <= total as real + 0.5 * n as real - Times(q as real, n as real) < n as real
    ensures IsNearest(q, total, n)
  {
    assert Times(q as real, n as real) == (n * q) as real;
  }

  /** Multiplied out, the two rates give back the counts they were made from. */
  lemma RatesRecoverCounts(c: Counts)
    ensures
      var m, tasks := ComputeBotMetrics(c), c.tasksCompleted + c.tasksFailed;
      && m.botId == c.botId && m.tasksCompleted == c.tasksCompleted
      && m.successRate * tasks as real == c.tasksCompleted as real
      && m.errorRate * (tasks + c.toolCalls + c.rejectedToolCalls) as real
         == (c.tasksFailed + c.rejectedToolCalls) as real
  {
    RatioTimesWhole(c.tasksCompleted, c.tasksCompleted + c.tasksFailed);
    RatioTimesWhole(c.tasksFailed + c.rejectedToolCalls,
                    c.tasksCompleted + c.tasksFailed + c.toolCalls + c.rejectedToolCalls);
    hide Ratio, Round;
  }

  lemma RatioTimesWhole(part: nat, whole: nat)
    requires part <= whole || whole > 0
    ensures Ratio(part, whole) * whole as real == part as real
  {
  }

  /** So do the figures per task and per minute; the two in whole units are the nearest ones. */
  lemma FiguresRecoverCounts(c: Counts)
    ensures
      var m, done := ComputeBotMetrics(c), c.tasksCompleted;
      if done == 0 then
        m.costPerTaskCents == 0 && m.tokensPerTask == 0 && m.toolCallsPerTask == 0.0 && m.tasksPerMinute == 0.0
      else
        && IsNearest(m.costPerTaskCents, c.totalCostCents, done) && IsNearest(m.tokensPerTask, c.totalTokens, done)
        && m.toolCallsPerTask * done as real == c.toolCalls as real
        && (if c.botHours == 0.0 then m.tasksPerMinute == 0.0
            else m.tasksPerMinute * (c.botHours * 60.0) == done as real)
  {
    hide IsNearest, Round;
    if c.tasksCompleted > 0 {
      RoundIsNearest(c.totalCostCents, c.tasksCompleted);
      RoundIsNearest(c.totalTokens, c.tasksCompleted);
      RatioTimesWhole(c.toolCalls, c.tasksCompleted);
    }
    if c.botHours != 0.0 {
      Undivided(c.tasksCompleted as real, c.botHours * 60.0);
    }
    hide Ratio;
  }

  lemma FractionPlace(part: real, whole: real)
    requires whole > 0.0
    ensures part / whole * whole == part
    ensures part / whole <= 0.0 <==> part <= 0.0
    ensures part / whole >= 1.0 <==> part >= whole
  {
    var x := part / whole;
    SignOfProduct(x, whole);
    SignOfProduct(x - 1.0, whole);
    assert (x - 1.0) * whole == part - whole;
  }

  lemma SignOfProduct(x: real, y: real)
    requires y > 0.0
    ensures x * y > 0.0 <==> x > 0.0
    ensures x * y < 0.0 <==> x < 0.0
  {
  }

  /** The idle time is what the tool calls leave of the hours, cut to [0, 1] of them. */
  lemma IdleTime(c: Counts)
    ensures
      var idle, hours, active := ComputeBotMetrics(c).idleRatio, Times(c.botHours, 3_600_000.0),
          Times(c.toolCalls as real, c.avgDurationMs);
      if c.botHours <= 0.0 || active >= hours then idle == 0.0
      else if active <= 0.0 then idle == 1.0
      else idle * hours == hours - active
  {
    if c.botHours > 0.0 {
      assert Times(c.botHours, 3_600_000.0) > 0.0;
      hide IdleShare, Times, Ratio, Round;
      RestOfShare(Times(c.toolCalls as real, c.avgDurationMs), Times(c.botHours, 3_600_000.0));
    }
  }

  lemma RestOfShare(part: real, whole: real)
    requires whole > 0.0
    ensures
      var rest := IdleShare(part, whole);
      if part >= whole then rest == 0.0
      else if part <= 0.0 then rest == 1.0
      else rest * whole == whole - part
  {
    FractionPlace(part, whole);
    assert (1.0 - part / whole) * whole == whole - part / whole * whole;
  }

  // ----- Normalisation ------------------------------------------------------

  function MinBy(s: seq<BotMetrics>, f: BotMetrics -> real): real
    requires s != []
  {
    if |s| == 1 then f(s[0]) else MinReal(f(s[0]), MinBy(s[1..], f))
  }

  function MaxBy(s: seq<BotMetrics>, f: BotMetrics -> real): real
    requires s != []
  {
    if |s| == 1 then f(s[0]) else MaxReal(f(s[0]), MaxBy(s[1..], f))
  }

  lemma {:induction false} BetweenMinAndMax(s: seq<BotMetrics>, f: BotMetrics -> real, m: BotMetrics)
    requires m in s
    ensures MinBy(s, f) <= f(m) <= MaxBy(s, f)
  {
    if |s| > 1 {
      if m in s[1..] {
        BetweenMinAndMax(s[1..], f, m);
      } else {
        assert m == s[0];
      }
    }
  }

  function NormalizeHigherIsBetter(value: real, min: real, max: real): real {
    if max == min then 100.0 else (value - min) / (max - min) * 100.0
  }

  function NormalizeLowerIsBetter(value: real, min: real, max: real): real {
    if max == min then 100.0 else (max - value) / (max - min) * 100.0
  }

  lemma WholeAndNothing(x: real)
    requires x != 0.0
    ensures x / x == 1.0 && 0.0 / x == 0.0
  {
    assert (x / x - 1.0) * x == 0.0;
  }

  lemma FractionInRange(part: real, whole: real)
    requires 0.0 <= part <= whole && whole > 0.0
    ensures 0.0 <= part / whole <= 1.0
  {
    assert part / whole * whole == part;
  }

  lemma FractionMonotone(a: real, b: real, whole: real)
    requires a <= b && whole > 0.0
    ensures a / whole <= b / whole
  {
    assert (b - a) / whole * whole == b - a;
    assert b / whole - a / whole == (b - a) / whole;
  }

  lemma NormalizedInRange(value: real, min: real, max: real)
    requires min <= value <= max
    ensures 0.0 <= NormalizeHigherIsBetter(value, min, max) <= 100.0
    ensures 0.0 <= NormalizeLowerIsBetter(value, min, max) <= 100.0
  {
    if min < max {
      FractionInRange(value - min, max - min);
      FractionInRange(max - value, max - min);
    }
  }

  lemma NormalizedMonotone(a: real, b: real, min: real, max: real)
    requires min <= a <= b <= max
    ensures NormalizeHigherIsBetter(a, min, max) <= NormalizeHigherIsBetter(b, min, max)
    ensures NormalizeLowerIsBetter(b, min, max) <= NormalizeLowerIsBetter(a, min, max)
  {
    if min < max {
      FractionMonotone(a - min, b - min, max - min);
      FractionMonotone(max - b, max - a, max - min);
    }
  }

  function TasksPerMinute(m: BotMetrics): real { m.tasksPerMinute }
  function TokensPerTask(m: BotMetrics): real { m.tokensPerTask as real }
  function ToolCallsPerTask(m: BotMetrics): real { m.toolCallsPerTask }
  function IdleRatio(m: BotMetrics): real { m.idleRatio }
  function CostPerTask(m: BotMetrics): real { m.costPerTaskCents as real }

  function HigherScore(m: BotMetrics, all: seq<BotMetrics>, f: BotMetrics -> real): real
    requires all != []
  {
    NormalizeHigherIsBetter(f(m), MinBy(all, f), MaxBy(all, f))
  }

  function LowerScore(m: BotMetrics, all: seq<BotMetrics>, f: BotMetrics -> real): real
    requires all != []
  {
    NormalizeLowerIsBetter(f(m), MinBy(all, f), MaxBy(all, f))
  }

  /** A score is the place of the bot between the bots with the least and the greatest value. */
  lemma ScoreIsPlace(lo: BotMetrics, m: BotMetrics, hi: BotMetrics, all: seq<BotMetrics>, f: BotMetrics -> real)
    requires lo in all && m in all && hi in all
    requires forall x :: x in all ==> f(lo) <= f(x) <= f(hi)
    ensures
      if f(lo) == f(hi) then HigherScore(m, all, f) == 100.0 == LowerScore(m, all, f)
      else
        && HigherScore(m, all, f) * (f(hi) - f(lo)) == 100.0 * (f(m) - f(lo))
        && LowerScore(m, all, f) * (f(hi) - f(lo)) == 100.0 * (f(hi) - f(m))
  {
    hide MinBy, MaxBy;
    BetweenMinAndMax(all, f, lo);
    BetweenMinAndMax(all, f, hi);
    ExtremesAreTaken(all, f);
    var spread := f(hi) - f(lo);
    assert MinBy(all, f) == f(lo) && MaxBy(all, f) == f(hi);
    if spread != 0.0 {
      assert (f(m) - f(lo)) / spread * spread == f(m) - f(lo);
      assert (f(hi) - f(m)) / spread * spread == f(hi) - f(m);
    }
  }

  lemma {:induction false} ExtremesAreTaken(s: seq<BotMetrics>, f: BotMetrics -> real)
    requires s != []
    ensures exists m :: m in s && MinBy(s, f) == f(m)
    ensures exists m :: m in s && MaxBy(s, f) == f(m)
  {
    assert s[0] in s;
    if |s| > 1 {
      ExtremesAreTaken(s[1..], f);
    }
  }

  predicate IsLeast(m: BotMetrics, all: seq<BotMetrics>, f: BotMetrics -> real) {
    forall x :: x in all ==> f(m) <= f(x)
  }

  predicate IsGreatest(m: BotMetrics, all: seq<BotMetrics>, f: BotMetrics -> real) {
    forall x :: x in all ==> f(x) <= f(m)
  }

  /** The column has two different values, and the bot holds the least or the greatest of them. */
  ghost predicate AtAnEnd(m: BotMetrics, all: seq<BotMetrics>, f: BotMetrics -> real) {
    (IsLeast(m, all, f) || IsGreatest(m, all, f)) && exists x :: x in all && f(x) != f(m)
  }

  lemma EndScores(m: BotMetrics, all: seq<BotMetrics>, f: BotMetrics -> real)
    requires m in all && AtAnEnd(m, all, f)
    ensures IsLeast(m, all, f) ==> HigherScore(m, all, f) == 0.0 && LowerScore(m, all, f) == 100.0
    ensures !IsLeast(m, all, f) ==> HigherScore(m, all, f) == 100.0 && LowerScore(m, all, f) == 0.0
    ensures IsLeast(m, all, f) <==> !IsGreatest(m, all, f)
  {
    hide MinBy, MaxBy;
    ExtremesAreTaken(all, f);
    var x :| x in all && f(x) != f(m);
    BetweenMinAndMax(all, f, m);
    BetweenMinAndMax(all, f, x);
    var lo :| lo in all && MinBy(all, f) == f(lo);
    var hi :| hi in all && MaxBy(all, f) == f(hi);
    if IsLeast(m, all, f) {
      assert f(m) <= f(lo);
    } else {
      assert f(hi) <= f(m);
    }
    var spread := f(hi) - f(lo);
    WholeAndNothing(spread);
  }

  function Points(best: bool): real {
    if best then 25.0 else 0.0
  }

  function EfficiencyScore(m: BotMetrics, all: seq<BotMetrics>): real
    requires all != []
  {
    (HigherScore(m, all, TasksPerMinute)
     + LowerScore(m, all, TokensPerTask)
     + LowerScore(m, all, ToolCallsPerTask)
     + LowerScore(m, all, IdleRatio)) / 4.0
  }

  /** The four metrics count the same: being best on one and worst on the others is worth 25 points. */
  lemma EfficiencyOfExtremes(m: BotMetrics, all: seq<BotMetrics>)
    requires m in all
    requires AtAnEnd(m, all, TasksPerMinute) && AtAnEnd(m, all, TokensPerTask)
    requires AtAnEnd(m, all, ToolCallsPerTask) && AtAnEnd(m, all, IdleRatio)
    ensures EfficiencyScore(m, all) ==
            Points(IsGreatest(m, all, TasksPerMinute)) + Points(IsLeast(m, all, TokensPerTask))
            + Points(IsLeast(m, all, ToolCallsPerTask)) + Points(IsLeast(m, all, IdleRatio))
  {
    hide HigherScore, LowerScore, AtAnEnd, IsLeast, IsGreatest;
    EndScores(m, all, TasksPerMinute);
    EndScores(m, all, TokensPerTask);
    EndScores(m, all, ToolCallsPerTask);
    EndScores(m, all, IdleRatio);
  }

  /** The bots that completed a task. */
  function Productive(all: seq<BotMetrics>): seq<BotMetrics>
    ensures forall m :: m in Productive(all) <==> m in all && m.tasksCompleted > 0
  {
    if all == [] then []
    else (if all[0].tasksCompleted > 0 then [all[0]] else []) + Productive(all[1..])
  }

  function CostEfficiencyScore(m: BotMetrics, all: seq<BotMetrics>): real {
    if m.tasksCompleted == 0 || Productive(all) == [] then 0.0
    else LowerScore(m, Productive(all), CostPerTask)
  }

  /** The cost score is the place among the bots that completed a task; the others get nothing. */
  lemma CostScoreIsPlace(lo: BotMetrics, m: BotMetrics, hi: BotMetrics, all: seq<BotMetrics>)
    requires lo in all && m in all && hi in all && lo.tasksCompleted > 0 && hi.tasksCompleted > 0
    requires forall x :: x in all && x.tasksCompleted > 0 ==>
               lo.costPerTaskCents <= x.costPerTaskCents <= hi.costPerTaskCents
    ensures
      var score, spread := CostEfficiencyScore(m, all), hi.costPerTaskCents - lo.costPerTaskCents;
      if m.tasksCompleted == 0 then score == 0.0
      else if spread == 0 then score == 100.0
      else score * spread as real == 100.0 * (hi.costPerTaskCents - m.costPerTaskCents) as real
  {
    hide LowerScore, HigherScore;
    if m.tasksCompleted > 0 {
      ScoreIsPlace(lo, m, hi, Productive(all), CostPerTask);
      assert CostPerTask(hi) - CostPerTask(lo) == (hi.costPerTaskCents - lo.costPerTaskCents) as real;
      assert CostPerTask(hi) - CostPerTask(m) == (hi.costPerTaskCents - m.costPerTaskCents) as real;
    }
  }

  // ----- Composite ----------------------------------------------------------

  datatype Weights = Weights(success: real, efficiency: real, cost: real, stability: real) {
    function Total(): real {
      success + efficiency + cost + stability
    }

    predicate Valid() {
      success >= 0.0 && efficiency >= 0.0 && cost >= 0.0 && stability >= 0.0 && Total() > 0.0
    }
  }

  const DEFAULT_WEIGHTS := Weights(40.0, 30.0, 20.0, 10.0)

  datatype Scores = Scores(success: real, efficiency: real, cost: real, stability: real)

  function ComponentScores(m: BotMetrics, all: seq<BotMetrics>): Scores
    requires all != []
  {
    Scores(m.successRate * 100.0, EfficiencyScore(m, all), CostEfficiencyScore(m, all), (1.0 - m.errorRate) * 100.0)
  }

  /** The weights divided by their sum. */
  function Normalised(w: Weights): Scores
    requires w.Total() != 0.0
  {
    var t := w.Total();
    Scores(w.success / t, w.efficiency / t, w.cost / t, w.stability / t)
  }

  function Combine(shares: Scores, s: Scores): real {
    Times(s.success, shares.success) + Times(s.efficiency, shares.efficiency)
    + Times(s.cost, shares.cost) + Times(s.stability, shares.stability)
  }

  function Weighted(w: Weights, s: Scores): real
    requires w.Total() != 0.0
  {
    Combine(Normalised(w), s)
  }

  function Clamp(x: real): real {
    MaxReal(0.0, MinReal(100.0, x))
  }

  function Composite(w: Weights, m: BotMetrics, all: seq<BotMetrics>): real
    requires w.Total() != 0.0 && all != []
  {
    Clamp(Weighted(w, ComponentScores(m, all)))
  }

  datatype Tier = High | Medium | Low {
    function Rank(): nat {
      match this
      case High => 2
      case Medium => 1
      case Low => 0
    }
  }

  datatype TierLimits = TierLimits(high: real, medium: real)

  const DEFAULT_LIMITS := TierLimits(75.0, 40.0)

  function AssignTier(l: TierLimits, score: real): Tier {
    if score >= l.high then High else if score >= l.medium then Medium else Low
  }

  predicate InRange(x: real) {
    0.0 <= x <= 100.0
  }

  lemma HigherScoreInRange(m: BotMetrics, all: seq<BotMetrics>, f: BotMetrics -> real)
    requires m in all
    ensures InRange(HigherScore(m, all, f)) && InRange(LowerScore(m, all, f))
  {
    BetweenMinAndMax(all, f, m);
    NormalizedInRange(f(m), MinBy(all, f), MaxBy(all, f));
  }

  lemma ComponentsInRange(m: BotMetrics, all: seq<BotMetrics>)
    requires m in all && RatiosInRange(m)
    ensures
      var s := ComponentScores(m, all);
      InRange(s.success) && InRange(s.efficiency) && InRange(s.cost) && InRange(s.stability)
  {
    HigherScoreInRange(m, all, TasksPerMinute);
    HigherScoreInRange(m, all, TokensPerTask);
    HigherScoreInRange(m, all, ToolCallsPerTask);
    HigherScoreInRange(m, all, IdleRatio);
    if m.tasksCompleted > 0 {
      HigherScoreInRange(m, Productive(all), CostPerTask);
    }
  }

  predicate AreShares(p: Scores) {
    && p.success >= 0.0 && p.efficiency >= 0.0 && p.cost >= 0.0 && p.stability >= 0.0
    && p.success + p.efficiency + p.cost + p.stability == 1.0
  }

  lemma SharesOfTotal(a: real, b: real, c: real, d: real, t: real)
    requires t > 0.0 && t == a + b + c + d
    ensures a / t + b / t + c / t + d / t == 1.0
  {
    var sum := a / t + b / t + c / t + d / t;
    Undivided(a, t);
    Undivided(b, t);
    Undivided(c, t);
    Undivided(d, t);
    Distribute(a / t, b / t, c / t, d / t, t);
    Undivided(sum - 1.0, t);
    assert (sum - 1.0) * t == 0.0;
  }

  lemma Undivided(part: real, whole: real)
    requires whole != 0.0
    ensures part / whole * whole == part
  {
  }

  lemma Distribute(a: real, b: real, c: real, d: real, t: real)
    ensures (a + b + c + d) * t == a * t + b * t + c * t + d * t
  {
  }

  lemma WeightsSumToOne(w: Weights)
    requires w.Valid()
    ensures AreShares(Normalised(w))
  {
    var t := w.Total();
    FractionInRange(w.success, t);
    FractionInRange(w.efficiency, t);
    FractionInRange(w.cost, t);
    FractionInRange(w.stability, t);
    SharesOfTotal(w.success, w.efficiency, w.cost, w.stability, t);
  }

  lemma ScaledMonotone(a: real, b: real, factor: real)
    requires a <= b && factor >= 0.0
    ensures Times(a, factor) <= Times(b, factor)
  {
    assert (b - a) * factor >= 0.0;
  }

  predicate NoLower(s: Scores, t: Scores) {
    s.success >= t.success && s.efficiency >= t.efficiency && s.cost >= t.cost && s.stability >= t.stability
  }

  lemma CombineMonotone(p: Scores, s: Scores, t: Scores)
    requires AreShares(p) && NoLower(s, t)
    ensures Combine(p, s) >= Combine(p, t)
  {
    hide Times;
    ScaledMonotone(t.success, s.success, p.success);
    ScaledMonotone(t.efficiency, s.efficiency, p.efficiency);
    ScaledMonotone(t.cost, s.cost, p.cost);
    ScaledMonotone(t.stability, s.stability, p.stability);
  }

  lemma WeightedMonotone(w: Weights, s: Scores, t: Scores)
    requires w.Valid() && NoLower(s, t)
    ensures Weighted(w, s) >= Weighted(w, t)
  {
    hide Normalised, Combine, NoLower, AreShares;
    WeightsSumToOne(w);
    CombineMonotone(Normalised(w), s, t);
  }

  lemma CombineOfEqual(p: Scores, x: real)
    requires AreShares(p)
    ensures Combine(p, Scores(x, x, x, x)) == x
  {
    Distribute(p.success, p.efficiency, p.cost, p.stability, x);
  }

  lemma WeightedOfEqual(w: Weights, x: real)
    requires w.Valid()
    ensures Weighted(w, Scores(x, x, x, x)) == x
  {
    hide Normalised, Combine, AreShares;
    WeightsSumToOne(w);
    CombineOfEqual(Normalised(w), x);
  }

  /** The weighted composite already lies in [0, 100], so the clamp changes nothing. */
  lemma {:induction false} ClampIsIdentity(w: Weights, m: BotMetrics, all: seq<BotMetrics>)
    requires w.Valid() && m in all && RatiosInRange(m)
    ensures InRange(Composite(w, m, all))
    ensures Composite(w, m, all) == Weighted(w, ComponentScores(m, all))
  {
    hide EfficiencyScore, CostEfficiencyScore, Weighted;
    ComponentsInRange(m, all);
    var s := ComponentScores(m, all);
    WeightedMonotone(w, s, Scores(0.0, 0.0, 0.0, 0.0));
    WeightedMonotone(w, Scores(100.0, 100.0, 100.0, 100.0), s);
    WeightedOfEqual(w, 0.0);
    WeightedOfEqual(w, 100.0);
  }

  /** All weight on one component makes the composite that component. */
  lemma {:induction false} LoneWeight(x: real, m: BotMetrics, all: seq<BotMetrics>)
    requires x > 0.0 && m in all && RatiosInRange(m)
    ensures
      var s := ComponentScores(m, all);
      && Composite(Weights(x, 0.0, 0.0, 0.0), m, all) == 100.0 * m.successRate
      && Composite(Weights(0.0, x, 0.0, 0.0), m, all) == s.efficiency
      && Composite(Weights(0.0, 0.0, x, 0.0), m, all) == s.cost
      && Composite(Weights(0.0, 0.0, 0.0, x), m, all) == 100.0 - 100.0 * m.errorRate
  {
    hide EfficiencyScore, CostEfficiencyScore;
    WholeAndNothing(x);
    ClampIsIdentity(Weights(x, 0.0, 0.0, 0.0), m, all);
    ClampIsIdentity(Weights(0.0, x, 0.0, 0.0), m, all);
    ClampIsIdentity(Weights(0.0, 0.0, x, 0.0), m, all);
    ClampIsIdentity(Weights(0.0, 0.0, 0.0, x), m, all);
  }

  /** With the default settings: the shares of the four components, and the tier limits 75 and 40. */
  lemma DefaultScore(m: BotMetrics, all: seq<BotMetrics>)
    requires m in all && RatiosInRange(m)
    ensures
      var score := ScoreOf(DEFAULT_WEIGHTS, DEFAULT_LIMITS, m, all);
      && score.composite.Some?
      && 10.0 * score.composite.value
         == 400.0 * m.successRate + 3.0 * EfficiencyScore(m, all) + 2.0 * CostEfficiencyScore(m, all)
            + 100.0 * (1.0 - m.errorRate)
      && (score.tier == High <==> score.composite.value >= 75.0)
      && (score.tier == Low <==> score.composite.value < 40.0)
  {
    hide EfficiencyScore, CostEfficiencyScore;
    ClampIsIdentity(DEFAULT_WEIGHTS, m, all);
  }

  /** Weights with sum zero give no number and the lowest tier; otherwise the limits decide. */
  lemma TierByLimits(w: Weights, l: TierLimits, m: BotMetrics, all: seq<BotMetrics>)
    requires m in all
    ensures
      match ScoreOf(w, l, m, all)
      case Score(None, tier) => w.success + w.efficiency + w.cost + w.stability == 0.0 && tier == Low
      case Score(Some(x), tier) =>
        && w.success + w.efficiency + w.cost + w.stability != 0.0 && 0.0 <= x <= 100.0
        && (tier == High <==> x >= l.high) && (tier == Medium <==> l.medium <= x < l.high)
  {
    hide Weighted, ComponentScores;
  }

  // ----- Dominance ----------------------------------------------------------

  /** a is at least as good as b on every metric. */
  predicate NoWorse(a: BotMetrics, b: BotMetrics) {
    && a.successRate >= b.successRate
    && a.errorRate <= b.errorRate
    && a.tasksPerMinute >= b.tasksPerMinute
    && a.tokensPerTask <= b.tokensPerTask
    && a.toolCallsPerTask <= b.toolCallsPerTask
    && a.idleRatio <= b.idleRatio
    && (b.tasksCompleted > 0 ==> a.tasksCompleted > 0 && a.costPerTaskCents <= b.costPerTaskCents)
  }

  lemma LowerScoreMonotone(a: BotMetrics, b: BotMetrics, all: seq<BotMetrics>, f: BotMetrics -> real)
    requires a in all && b in all && f(a) <= f(b)
    ensures LowerScore(a, all, f) >= LowerScore(b, all, f)
    ensures HigherScore(a, all, f) <= HigherScore(b, all, f)
  {
    BetweenMinAndMax(all, f, a);
    BetweenMinAndMax(all, f, b);
    NormalizedMonotone(f(a), f(b), MinBy(all, f), MaxBy(all, f));
  }

  lemma ComponentsMonotone(a: BotMetrics, b: BotMetrics, all: seq<BotMetrics>)
    requires a in all && b in all && NoWorse(a, b)
    ensures NoLower(ComponentScores(a, all), ComponentScores(b, all))
  {
    hide HigherScore, LowerScore;
    LowerScoreMonotone(b, a, all, TasksPerMinute);
    LowerScoreMonotone(a, b, all, TokensPerTask);
    LowerScoreMonotone(a, b, all, ToolCallsPerTask);
    LowerScoreMonotone(a, b, all, IdleRatio);
    if b.tasksCompleted > 0 {
      LowerScoreMonotone(a, b, Productive(all), CostPerTask);
    } else if a.tasksCompleted > 0 {
      HigherScoreInRange(a, Productive(all), CostPerTask);
    }
  }

  /** A bot that is no worse on every metric never gets a lower composite or tier. */
  lemma Dominance(w: Weights, l: TierLimits, a: BotMetrics, b: BotMetrics, all: seq<BotMetrics>)
    requires w.Valid() && a in all && b in all && NoWorse(a, b)
    ensures Composite(w, a, all) >= Composite(w, b, all)
    ensures AssignTier(l, Composite(w, a, all)).Rank() >= AssignTier(l, Composite(w, b, all)).Rank()
  {
    hide EfficiencyScore, CostEfficiencyScore, Weighted, NoLower;
    ComponentsMonotone(a, b, all);
    WeightedMonotone(w, ComponentScores(a, all), ComponentScores(b, all));
  }

  lemma ScoreStrictlyMonotone(a: BotMetrics, b: BotMetrics, all: seq<BotMetrics>, f: BotMetrics -> real)
    requires a in all && b in all && f(a) < f(b)
    ensures LowerScore(a, all, f) > LowerScore(b, all, f)
    ensures HigherScore(a, all, f) < HigherScore(b, all, f)
  {
    hide MinBy, MaxBy;
    BetweenMinAndMax(all, f, a);
    BetweenMinAndMax(all, f, b);
    var min, max := MinBy(all, f), MaxBy(all, f);
    StrictFraction(f(a) - min, f(b) - min, max - min);
    StrictFraction(max - f(b), max - f(a), max - min);
  }

  lemma StrictFraction(a: real, b: real, whole: real)
    requires a < b && whole > 0.0
    ensures a / whole < b / whole
  {
    assert (b - a) / whole * whole == b - a;
    assert b / whole - a / whole == (b - a) / whole;
  }

  lemma ScaledStrictly(a: real, b: real, factor: real)
    requires a < b && factor > 0.0
    ensures Times(a, factor) < Times(b, factor)
  {
    assert (b - a) * factor > 0.0;
  }

  /** a is strictly ahead on a component that the weights count. */
  predicate AheadWhereCounted(w: Weights, s: Scores, t: Scores) {
    || (w.success > 0.0 && s.success > t.success)
    || (w.efficiency > 0.0 && s.efficiency > t.efficiency)
    || (w.cost > 0.0 && s.cost > t.cost)
    || (w.stability > 0.0 && s.stability > t.stability)
  }

  lemma ShareOfPositive(part: real, whole: real)
    requires part > 0.0 && whole > 0.0
    ensures part / whole > 0.0
  {
  }

  lemma WeightedStrictlyMonotone(w: Weights, s: Scores, t: Scores)
    requires w.Valid() && NoLower(s, t) && AheadWhereCounted(w, s, t)
    ensures Weighted(w, s) > Weighted(w, t)
  {
    hide Times;
    WeightsSumToOne(w);
    var p, total := Normalised(w), w.Total();
    ScaledMonotone(t.success, s.success, p.success);
    ScaledMonotone(t.efficiency, s.efficiency, p.efficiency);
    ScaledMonotone(t.cost, s.cost, p.cost);
    ScaledMonotone(t.stability, s.stability, p.stability);
    if w.success > 0.0 && s.success > t.success {
      ShareOfPositive(w.success, total);
      ScaledStrictly(t.success, s.success, p.success);
    } else if w.efficiency > 0.0 && s.efficiency > t.efficiency {
      ShareOfPositive(w.efficiency, total);
      ScaledStrictly(t.efficiency, s.efficiency, p.efficiency);
    } else if w.cost > 0.0 && s.cost > t.cost {
      ShareOfPositive(w.cost, total);
      ScaledStrictly(t.cost, s.cost, p.cost);
    } else {
      ShareOfPositive(w.stability, total);
      ScaledStrictly(t.stability, s.stability, p.stability);
    }
  }

  /** a is strictly better than b on a metric whose weight is positive. */
  predicate BetterSomewhere(w: Weights, a: BotMetrics, b: BotMetrics) {
    || (w.success > 0.0 && a.successRate > b.successRate)
    || (w.stability > 0.0 && a.errorRate < b.errorRate)
    || (w.cost > 0.0 && b.tasksCompleted > 0 && a.costPerTaskCents < b.costPerTaskCents)
    || (w.efficiency > 0.0 &&
        (|| a.tasksPerMinute > b.tasksPerMinute || a.tokensPerTask < b.tokensPerTask
         || a.toolCallsPerTask < b.toolCallsPerTask || a.idleRatio < b.idleRatio))
  }

  lemma EfficiencyStrictlyMonotone(a: BotMetrics, b: BotMetrics, all: seq<BotMetrics>)
    requires a in all && b in all && NoWorse(a, b)
    requires || a.tasksPerMinute > b.tasksPerMinute || a.tokensPerTask < b.tokensPerTask
             || a.toolCallsPerTask < b.toolCallsPerTask || a.idleRatio < b.idleRatio
    ensures EfficiencyScore(a, all) > EfficiencyScore(b, all)
  {
    hide HigherScore, LowerScore;
    LowerScoreMonotone(b, a, all, TasksPerMinute);
    LowerScoreMonotone(a, b, all, TokensPerTask);
    LowerScoreMonotone(a, b, all, ToolCallsPerTask);
    LowerScoreMonotone(a, b, all, IdleRatio);
    if a.tasksPerMinute > b.tasksPerMinute {
      ScoreStrictlyMonotone(b, a, all, TasksPerMinute);
    } else if a.tokensPerTask < b.tokensPerTask {
      ScoreStrictlyMonotone(a, b, all, TokensPerTask);
    } else if a.toolCallsPerTask < b.toolCallsPerTask {
      ScoreStrictlyMonotone(a, b, all, ToolCallsPerTask);
    } else {
      ScoreStrictlyMonotone(a, b, all, IdleRatio);
    }
  }

  /** Every metric counts: no worse anywhere and better on one with a positive weight is a higher composite. */
  lemma {:induction false} StrictDominance(w: Weights, a: BotMetrics, b: BotMetrics, all: seq<BotMetrics>)
    requires w.Valid() && a in all && b in all && RatiosInRange(a) && RatiosInRange(b)
    requires NoWorse(a, b) && BetterSomewhere(w, a, b)
    ensures Composite(w, a, all) > Composite(w, b, all)
  {
    hide EfficiencyScore, LowerScore, Weighted, NoLower, Composite;
    ComponentsMonotone(a, b, all);
    ClampIsIdentity(w, a, all);
    ClampIsIdentity(w, b, all);
    if w.cost > 0.0 && b.tasksCompleted > 0 && a.costPerTaskCents < b.costPerTaskCents {
      ScoreStrictlyMonotone(a, b, Productive(all), CostPerTask);
    } else if !(w.success > 0.0 && a.successRate > b.successRate)
           && !(w.stability > 0.0 && a.errorRate < b.errorRate) {
      EfficiencyStrictlyMonotone(a, b, all);
    }
    WeightedStrictlyMonotone(w, ComponentScores(a, all), ComponentScores(b, all));
  }

  // ----- Units --------------------------------------------------------------

  datatype Affine = Affine(scale: real, shift: real) {
    function Apply(x: real): real {
      scale * x + shift
    }
  }

  /** Every value of b's column is the same positive affine image of a's. */
  ghost predicate Rescales(a: seq<BotMetrics>, b: seq<BotMetrics>, f: BotMetrics -> real, unit: Affine) {
    unit.scale > 0.0 && |a| == |b| && forall i :: 0 <= i < |a| ==> f(b[i]) == unit.Apply(f(a[i]))
  }

  lemma AffineMinMax(x: real, y: real, unit: Affine)
    requires unit.scale > 0.0
    ensures MinReal(unit.Apply(x), unit.Apply(y)) == unit.Apply(MinReal(x, y))
    ensures MaxReal(unit.Apply(x), unit.Apply(y)) == unit.Apply(MaxReal(x, y))
  {
    ScaledMonotone(MinReal(x, y), MaxReal(x, y), unit.scale);
  }

  lemma {:induction false} RescaledMinMax(
    a: seq<BotMetrics>, b: seq<BotMetrics>, f: BotMetrics -> real, unit: Affine)
    requires a != [] && Rescales(a, b, f, unit)
    ensures MinBy(b, f) == unit.Apply(MinBy(a, f))
    ensures MaxBy(b, f) == unit.Apply(MaxBy(a, f))
  {
    hide Affine.Apply, MinReal, MaxReal;
    if |a| > 1 {
      RescaledMinMax(a[1..], b[1..], f, unit);
      AffineMinMax(f(a[0]), MinBy(a[1..], f), unit);
      AffineMinMax(f(a[0]), MaxBy(a[1..], f), unit);
    }
  }

  lemma ScaledFraction(part: real, whole: real, scale: real)
    requires whole != 0.0 && scale > 0.0
    ensures scale * whole != 0.0 && (scale * part) / (scale * whole) == part / whole
  {
    assert part == part / whole * whole;
    assert scale * part == (part / whole) * (scale * whole);
  }

  lemma RescaledNormalized(v: real, min: real, max: real, unit: Affine)
    requires unit.scale > 0.0
    ensures NormalizeHigherIsBetter(unit.Apply(v), unit.Apply(min), unit.Apply(max))
            == NormalizeHigherIsBetter(v, min, max)
    ensures NormalizeLowerIsBetter(unit.Apply(v), unit.Apply(min), unit.Apply(max))
            == NormalizeLowerIsBetter(v, min, max)
  {
    if max != min {
      ScaledFraction(v - min, max - min, unit.scale);
      ScaledFraction(max - v, max - min, unit.scale);
      assert unit.scale * (v - min) == unit.Apply(v) - unit.Apply(min);
      assert unit.scale * (max - v) == unit.Apply(max) - unit.Apply(v);
      assert unit.scale * (max - min) == unit.Apply(max) - unit.Apply(min);
    }
  }

  lemma RescaledScore(a: seq<BotMetrics>, b: seq<BotMetrics>, f: BotMetrics -> real, unit: Affine, i: nat)
    requires i < |a| && Rescales(a, b, f, unit)
    ensures HigherScore(b[i], b, f) == HigherScore(a[i], a, f)
    ensures LowerScore(b[i], b, f) == LowerScore(a[i], a, f)
  {
    hide Affine.Apply, MinBy, MaxBy, NormalizeHigherIsBetter, NormalizeLowerIsBetter;
    RescaledMinMax(a, b, f, unit);
    RescaledNormalized(f(a[i]), MinBy(a, f), MaxBy(a, f), unit);
  }

  /** Measuring any of the four metrics in other units leaves every efficiency score as it was. */
  lemma {:induction false} EfficiencyIgnoresUnits(
    a: seq<BotMetrics>, b: seq<BotMetrics>, i: nat, rate: Affine, tokens: Affine, calls: Affine, idle: Affine)
    requires i < |a|
    requires Rescales(a, b, TasksPerMinute, rate)
    requires Rescales(a, b, TokensPerTask, tokens)
    requires Rescales(a, b, ToolCallsPerTask, calls)
    requires Rescales(a, b, IdleRatio, idle)
    ensures EfficiencyScore(b[i], b) == EfficiencyScore(a[i], a)
  {
    hide HigherScore, LowerScore;
    RescaledScore(a, b, TasksPerMinute, rate, i);
    RescaledScore(a, b, TokensPerTask, tokens, i);
    RescaledScore(a, b, ToolCallsPerTask, calls, i);
    RescaledScore(a, b, IdleRatio, idle, i);
  }

  // ----- The engine, updating its tables in place -----------------------------

  datatype Score = Score(composite: Option<real>, tier: Tier)

  datatype TelemetryRow = TelemetryRow(executionId: ExecutionId, botId: BotId, metricName: string, value: real)

  function RowsFor(execution: ExecutionId, m: BotMetrics, all: seq<BotMetrics>): seq<TelemetryRow>
    requires all != []
  {
    var s := ComponentScores(m, all);
    [TelemetryRow(execution, m.botId, "success_rate_score", s.success),
     TelemetryRow(execution, m.botId, "efficiency_score", s.efficiency),
     TelemetryRow(execution, m.botId, "cost_efficiency_score", s.cost),
     TelemetryRow(execution, m.botId, "stability_score", s.stability)]
  }

  /** The rows of the first n bots. */
  function AllRows(execution: ExecutionId, all: seq<BotMetrics>, n: nat): seq<TelemetryRow>
    requires n <= |all|
  {
    if n == 0 then [] else AllRows(execution, all, n - 1) + RowsFor(execution, all[n - 1], all)
  }

  predicate AlreadyScored(telemetry: seq<TelemetryRow>, execution: ExecutionId) {
    exists i :: 0 <= i < |telemetry|
                && telemetry[i].executionId == execution && telemetry[i].metricName == "success_rate_score"
  }

  /** A missing composite stands for NaN: that is what weights with sum zero lead to. NaN reaches no tier limit. */
  function ScoreOf(w: Weights, l: TierLimits, m: BotMetrics, all: seq<BotMetrics>): Score
    requires all != []
  {
    if w.Total() == 0.0 then Score(None, Low)
    else Score(Some(Composite(w, m, all)), AssignTier(l, Composite(w, m, all)))
  }

  /** The bots table after the first n bots were scored. */
  function AllScores(
    w: Weights, l: TierLimits, before: map<BotId, Score>, all: seq<BotMetrics>, n: nat): map<BotId, Score>
    requires n <= |all|
  {
    if n == 0 then before
    else AllScores(w, l, before, all, n - 1)[all[n - 1].botId := ScoreOf(w, l, all[n - 1], all)]
  }

  lemma NothingScored(
    w: Weights, l: TierLimits, before: map<BotId, Score>, execution: ExecutionId, all: seq<BotMetrics>)
    ensures AllRows(execution, all, 0) == [] && AllScores(w, l, before, all, 0) == before
  {
  }

  lemma OneMoreBot(
    w: Weights, l: TierLimits, before: map<BotId, Score>, execution: ExecutionId, all: seq<BotMetrics>, n: nat)
    requires n < |all|
    ensures AllRows(execution, all, n + 1) == AllRows(execution, all, n) + RowsFor(execution, all[n], all)
    ensures AllScores(w, l, before, all, n + 1)
            == AllScores(w, l, before, all, n)[all[n].botId := ScoreOf(w, l, all[n], all)]
  {
    hide ScoreOf, RowsFor;
  }

  class ScoreEngine {
    const weights: Weights
    const limits: TierLimits
    var telemetry: seq<TelemetryRow>
    var scored: map<BotId, Score>

    constructor (weights: Option<Weights>, limits: Option<TierLimits>)
      ensures this.weights == weights.GetOr(DEFAULT_WEIGHTS) && this.limits == limits.GetOr(DEFAULT_LIMITS)
      ensures telemetry == [] && scored == map[]
    {
      this.weights, this.limits := weights.GetOr(DEFAULT_WEIGHTS), limits.GetOr(DEFAULT_LIMITS);
      telemetry, scored := [], map[];
    }

    /** Scores every bot of the execution once; scoring it again changes nothing. */
    method ComputeScoresForExecution(execution: ExecutionId, all: seq<BotMetrics>)
      modifies this
      ensures
        if AlreadyScored(old(telemetry), execution) || all == [] then
          telemetry == old(telemetry) && scored == old(scored)
        else
          && telemetry == old(telemetry) + AllRows(execution, all, |all|)
          && scored == AllScores(weights, limits, old(scored), all, |all|)
      ensures all != [] ==> AlreadyScored(telemetry, execution)
    {
      hide ScoreOf, AlreadyScored, RowsFor, AllRows, AllScores;
      if AlreadyScored(telemetry, execution) || all == [] {
        return;
      }
      NothingScored(weights, limits, scored, execution, all);
      var i := 0;
      while i < |all|
        invariant 0 <= i <= |all|
        invariant telemetry == old(telemetry) + AllRows(execution, all, i)
        invariant scored == AllScores(weights, limits, old(scored), all, i)
      {
        OneMoreBot(weights, limits, old(scored), execution, all, i);
        telemetry := telemetry + RowsFor(execution, all[i], all);
        scored := scored[all[i].botId := ScoreOf(weights, limits, all[i], all)];
        i := i + 1;
      }
      ScoredOnce(old(telemetry), execution, all);
    }
  }

  /** Every bot gets the score of its own metrics, and no other bot is touched. */
  lemma {:induction false} EachBotGetsItsScore(
    w: Weights, l: TierLimits, before: map<BotId, Score>, all: seq<BotMetrics>, n: nat, i: nat)
    requires i < n <= |all|
    requires forall j, k :: 0 <= j < k < |all| ==> all[j].botId != all[k].botId
    ensures Lookup(AllScores(w, l, before, all, n), all[i].botId) == Some(ScoreOf(w, l, all[i], all))
    ensures forall b :: (forall m :: m in all ==> m.botId != b) ==>
              Lookup(AllScores(w, l, before, all, n), b) == Lookup(before, b)
  {
    hide ScoreOf;
    if i < n - 1 {
      EachBotGetsItsScore(w, l, before, all, n - 1, i);
    }
    OthersUntouched(w, l, before, all, n);
  }

  lemma {:induction false} OthersUntouched(
    w: Weights, l: TierLimits, before: map<BotId, Score>, all: seq<BotMetrics>, n: nat)
    requires n <= |all|
    ensures forall b :: (forall m :: m in all ==> m.botId != b) ==>
              Lookup(AllScores(w, l, before, all, n), b) == Lookup(before, b)
  {
    hide ScoreOf;
    if n > 0 {
      OthersUntouched(w, l, before, all, n - 1);
      assert all[n - 1] in all;
    }
  }

  lemma {:induction false} FirstRow(execution: ExecutionId, all: seq<BotMetrics>, n: nat)
    requires 0 < n <= |all|
    ensures AllRows(execution, all, n) != []
    ensures AllRows(execution, all, n)[0] ==
            TelemetryRow(execution, all[0].botId, "success_rate_score", ComponentScores(all[0], all).success)
  {
    hide ComponentScores;
    if n > 1 {
      FirstRow(execution, all, n - 1);
    }
  }

  /** The four rows of each bot, by name, where the loop puts them. */
  lemma {:induction false} RowsAt(execution: ExecutionId, all: seq<BotMetrics>, n: nat, i: nat)
    requires i < n <= |all|
    ensures
      var rows, m := AllRows(execution, all, n), all[i];
      && |rows| == 4 * n
      && rows[4 * i] == TelemetryRow(execution, m.botId, "success_rate_score", 100.0 * m.successRate)
      && rows[4 * i + 1] == TelemetryRow(execution, m.botId, "efficiency_score", EfficiencyScore(m, all))
      && rows[4 * i + 2] == TelemetryRow(execution, m.botId, "cost_efficiency_score", CostEfficiencyScore(m, all))
      && rows[4 * i + 3] == TelemetryRow(execution, m.botId, "stability_score", 100.0 - 100.0 * m.errorRate)
  {
    hide EfficiencyScore, CostEfficiencyScore;
    if i < n - 1 {
      RowsAt(execution, all, n - 1, i);
    } else {
      RowCount(execution, all, n - 1);
    }
  }

  lemma {:induction false} RowCount(execution: ExecutionId, all: seq<BotMetrics>, n: nat)
    requires n <= |all|
    ensures |AllRows(execution, all, n)| == 4 * n
  {
    hide ComponentScores;
    if n > 0 {
      RowCount(execution, all, n - 1);
    }
  }

  lemma ScoredOnce(before: seq<TelemetryRow>, execution: ExecutionId, all: seq<BotMetrics>)
    requires all != []
    ensures AlreadyScored(before + AllRows(execution, all, |all|), execution)
  {
    hide ComponentScores, AllRows;
    FirstRow(execution, all, |all|);
    var after := before + AllRows(execution, all, |all|);
    assert after[|before|] == AllRows(execution, all, |all|)[0];
  }
}
