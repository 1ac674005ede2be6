/**
 * DNA capture after an execution: which bots are elite, and the structural
 * payload recorded for each of them, which holds argument keys but no values.
 */
module DnaCapture {
  import opened Prelude

  // ----- Elite bots ---------------------------------------------------------

  /** A missing score is NaN, which a scoring with weights of sum zero leaves behind. */
  datatype ScoredBot = ScoredBot(id: string, score: Option<real>, completed: nat, failed: nat)

  datatype EliteRule = EliteRule(threshold: real, aboveAveragePct: real, errorCeiling: real)

  const DEFAULT_RULE := EliteRule(75.0, 20.0, 0.10)

  function TotalScore(bots: seq<ScoredBot>): real {
    if bots == [] then 0.0 else TotalScore(bots[..|bots| - 1]) + bots[|bots| - 1].score.GetOr(0.0)
  }

  predicate AllNumbers(bots: seq<ScoredBot>) {
    forall i :: 0 <= i < |bots| ==> bots[i].score.Some?
  }

  /** One NaN among the scores makes their sum and average NaN. */
  function Average(bots: seq<ScoredBot>): Option<real>
    requires bots != []
  {
    if AllNumbers(bots) then Some(TotalScore(bots) / |bots| as real) else None
  }

  function ErrorRate(b: ScoredBot): real {
    if b.completed + b.failed == 0 then 0.0 else b.failed as real / (b.completed + b.failed) as real
  }

  /** The score an elite bot has to exceed, relative to the average of its execution. */
  function Bar(rule: EliteRule, average: real): real {
    average * (1.0 + rule.aboveAveragePct / 100.0)
  }

  /** The comparison that turns a bot away; with NaN it does not hold. */
  predicate AtMost(score: Option<real>, bar: Option<real>) {
    score.Some? && bar.Some? && score.value <= bar.value
  }

  function BarOf(rule: EliteRule, average: Option<real>): Option<real> {
    match average
    case None => None
    case Some(x) => Some(Bar(rule, x))
  }

  predicate IsElite(rule: EliteRule, average: Option<real>, b: ScoredBot) {
    && !AtMost(b.score, Some(rule.threshold)) && !AtMost(b.score, BarOf(rule, average))
    && ErrorRate(b) < rule.errorCeiling
  }

  function EliteOf(rule: EliteRule, average: Option<real>, bots: seq<ScoredBot>): seq<ScoredBot> {
    if bots == [] then []
    else
      EliteOf(rule, average, bots[..|bots| - 1])
      + (if IsElite(rule, average, bots[|bots| - 1]) then [bots[|bots| - 1]] else [])
  }

  function EliteBots(rule: EliteRule, bots: seq<ScoredBot>): seq<ScoredBot> {
    if bots == [] then [] else EliteOf(rule, Average(bots), bots)
  }

  function Times(count: nat, bar: real): real {
    count as real * bar
  }

  lemma OneMoreTime(count: nat, bar: real)
    ensures Times(count + 1, bar) == Times(count, bar) + bar && Times(0, bar) == 0.0
  {
  }

  /** Every bot has a number for a score, and none is negative. */
  predicate Scored(bots: seq<ScoredBot>) {
    AllNumbers(bots) && forall i :: 0 <= i < |bots| ==> bots[i].score.value >= 0.0
  }

  lemma {:induction false} EliteShareOfTotal(rule: EliteRule, average: real, bots: seq<ScoredBot>)
    requires Scored(bots)
    ensures
      var k := |EliteOf(rule, Some(average), bots)|;
      TotalScore(bots) >= Times(k, Bar(rule, average)) && (k > 0 ==> TotalScore(bots) > Times(k, Bar(rule, average)))
  {
    hide Bar, Times, ErrorRate;
    if bots != [] {
      var init, b := bots[..|bots| - 1], bots[|bots| - 1];
      EliteShareOfTotal(rule, average, init);
      OneMoreTime(|EliteOf(rule, Some(average), init)|, Bar(rule, average));
    } else {
      OneMoreTime(0, Bar(rule, average));
    }
  }

  lemma CancelAverage(average: real, factor: real, k: real, n: real)
    requires average >= 0.0 && k * (average * factor) < average * n
    ensures k * factor < n
  {
    assert average * (k * factor) == k * (average * factor);
    assert average * (n - k * factor) > 0.0;
  }

  /**
   * However the scores are spread, k elites among n bots satisfy
   * k * (100 + pct) < 100 * n; with a positive margin they are a proper subset.
   */
  lemma EliteBound(rule: EliteRule, bots: seq<ScoredBot>)
    requires Scored(bots)
    requires EliteBots(rule, bots) != []
    ensures |EliteBots(rule, bots)| as real * (100.0 + rule.aboveAveragePct) < 100.0 * |bots| as real
    ensures rule.aboveAveragePct >= 0.0 ==> |EliteBots(rule, bots)| < |bots|
  {
    hide EliteOf, TotalScore;
    var average, k, n := Average(bots).value, |EliteBots(rule, bots)| as real, |bots| as real;
    var factor := 1.0 + rule.aboveAveragePct / 100.0;
    EliteShareOfTotal(rule, average, bots);
    TotalIsNonNegative(bots);
    AverageTimesCount(TotalScore(bots), n);
    CancelAverage(average, factor, k, n);
    assert k * (100.0 + rule.aboveAveragePct) == 100.0 * (k * factor);
    if rule.aboveAveragePct >= 0.0 {
      assert k * rule.aboveAveragePct >= 0.0;
      assert k * (100.0 + rule.aboveAveragePct) == k * 100.0 + k * rule.aboveAveragePct;
    }
  }

  /** With the default margin of 20 percent, fewer than five in six bots are elite. */
  lemma DefaultEliteShare(bots: seq<ScoredBot>)
    requires Scored(bots)
    requires bots != []
    ensures 6 * |EliteBots(DEFAULT_RULE, bots)| < 5 * |bots|
  {
    if EliteBots(DEFAULT_RULE, bots) != [] {
      EliteBound(DEFAULT_RULE, bots);
    }
  }

  /**
   * A single NaN takes the comparison with the average away from all bots: those
   * with a NaN score need no more than a low error rate, the others the threshold.
   */
  lemma {:induction false} NaNLowersTheBar(rule: EliteRule, bots: seq<ScoredBot>, b: ScoredBot)
    requires bots != [] && !AllNumbers(bots)
    ensures b in EliteBots(rule, bots) <==>
            && b in bots && ErrorRate(b) < rule.errorCeiling
            && (b.score.None? || b.score.value > rule.threshold)
  {
    EliteIsSelection(rule, None, bots, b);
  }

  lemma {:induction false} EliteIsSelection(rule: EliteRule, average: Option<real>, bots: seq<ScoredBot>, b: ScoredBot)
    ensures b in EliteOf(rule, average, bots) <==> b in bots && IsElite(rule, average, b)
  {
    hide IsElite;
    if bots != [] {
      EliteIsSelection(rule, average, bots[..|bots| - 1], b);
      assert bots == bots[..|bots| - 1] + [bots[|bots| - 1]];
    }
  }

  /** A bot without tasks has made no error. */
  predicate FewErrors(b: ScoredBot, ceiling: real) {
    if b.completed + b.failed == 0 then 0.0 < ceiling
    else b.failed as real < ceiling * (b.completed + b.failed) as real
  }

  lemma ErrorRateBelow(b: ScoredBot, ceiling: real)
    ensures ErrorRate(b) < ceiling <==> FewErrors(b, ceiling)
  {
    if b.completed + b.failed > 0 {
      ShareBelow(b.failed as real, (b.completed + b.failed) as real, ceiling);
    }
  }

  lemma ShareBelow(part: real, whole: real, limit: real)
    requires whole > 0.0
    ensures part / whole < limit <==> part < limit * whole
  {
    var gap := limit - part / whole;
    assert part / whole * whole == part;
    assert gap * whole == limit * whole - part;
    SignOfProduct(gap, whole);
  }

  lemma SignOfProduct(x: real, y: real)
    requires y > 0.0
    ensures x * y > 0.0 <==> x > 0.0
  {
  }

  /** Above the bar is 100 * n times the score above (100 + pct) times the sum. */
  lemma AboveBar(pct: real, total: real, n: real, score: real)
    requires n > 0.0
    ensures score > total / n * (1.0 + pct / 100.0) <==> 100.0 * (n * score) > (100.0 + pct) * total
  {
    var mean := total / n;
    assert mean * n == total;
    var gap := score - mean * (1.0 + pct / 100.0);
    SignOfProduct(gap, n);
    assert gap * n == score * n - mean * n * (1.0 + pct / 100.0);
    assert 100.0 * (total * (1.0 + pct / 100.0)) == (100.0 + pct) * total;
  }

  /** When every score is a number, the elites are exactly the bots with these three properties. */
  lemma {:induction false} EliteIffOutstanding(rule: EliteRule, bots: seq<ScoredBot>, b: ScoredBot)
    requires AllNumbers(bots)
    ensures b in EliteBots(rule, bots) <==>
            && b in bots && b.score.value > rule.threshold && FewErrors(b, rule.errorCeiling)
            && 100.0 * (|bots| as real * b.score.value) > (100.0 + rule.aboveAveragePct) * TotalScore(bots)
  {
    hide TotalScore, EliteOf, ErrorRate, FewErrors;
    if b in bots {
      var i :| 0 <= i < |bots| && bots[i] == b;
      assert b.score.Some?;
      EliteIsSelection(rule, Average(bots), bots, b);
      AboveBar(rule.aboveAveragePct, TotalScore(bots), |bots| as real, b.score.value);
      ErrorRateBelow(b, rule.errorCeiling);
    } else if bots != [] {
      EliteIsSelection(rule, Average(bots), bots, b);
    }
  }

  /** With the default settings: above 75, above 1.2 times the mean, fewer than one task in ten failed. */
  lemma DefaultElite(bots: seq<ScoredBot>, b: ScoredBot)
    requires AllNumbers(bots)
    ensures b in EliteBots(DEFAULT_RULE, bots) <==>
            && b in bots && b.score.value > 75.0
            && 10.0 * (|bots| as real * b.score.value) > 12.0 * TotalScore(bots)
            && (10 * b.failed < b.completed + b.failed || b.completed + b.failed == 0)
  {
    EliteIffOutstanding(DEFAULT_RULE, bots, b);
    var total := TotalScore(bots);
    hide EliteBots, TotalScore;
  }

  /** The sum of the scores is additive, and the selection keeps the order of the bots. */
  lemma {:induction false} SelectionKeepsOrder(
    rule: EliteRule, average: Option<real>, a: seq<ScoredBot>, b: seq<ScoredBot>)
    ensures EliteOf(rule, average, a + b) == EliteOf(rule, average, a) + EliteOf(rule, average, b)
    ensures TotalScore(a + b) == TotalScore(a) + TotalScore(b)
    ensures |b| == 1 ==> TotalScore(b) == b[0].score.GetOr(0.0)
  {
    hide IsElite;
    if b == [] {
      assert a + b == a;
    } else {
      assert (a + b)[..|a + b| - 1] == a + b[..|b| - 1];
      SelectionKeepsOrder(rule, average, a, b[..|b| - 1]);
    }
  }

  /** So the bound fails at NaN: finished bots with a NaN score and no failure are all elite, however many. */
  lemma {:induction false} NaNVoidsTheBound(bots: seq<ScoredBot>)
    requires bots != []
    requires forall i :: 0 <= i < |bots| ==> bots[i].score.None? && bots[i].failed == 0
    ensures EliteBots(DEFAULT_RULE, bots) == bots
  {
    AllSelected(DEFAULT_RULE, None, bots);
  }

  lemma {:induction false} AllSelected(rule: EliteRule, average: Option<real>, bots: seq<ScoredBot>)
    requires forall i :: 0 <= i < |bots| ==> IsElite(rule, average, bots[i])
    ensures EliteOf(rule, average, bots) == bots
  {
    hide IsElite;
    if bots != [] {
      AllSelected(rule, average, bots[..|bots| - 1]);
    }
  }

  lemma AverageTimesCount(total: real, n: real)
    requires n > 0.0 && total >= 0.0
    ensures total / n * n == total && total / n >= 0.0
  {
  }

  lemma {:induction false} TotalIsNonNegative(bots: seq<ScoredBot>)
    requires Scored(bots)
    ensures TotalScore(bots) >= 0.0
  {
    if bots != [] {
      TotalIsNonNegative(bots[..|bots| - 1]);
    }
  }

  /** The sum as JavaScript computes it: NaN once a NaN was added. */
  function SumOf(bots: seq<ScoredBot>): Option<real> {
    if AllNumbers(bots) then Some(TotalScore(bots)) else None
  }

  lemma SumOneMore(bots: seq<ScoredBot>, i: nat)
    requires i < |bots|
    ensures
      var sum, score := SumOf(bots[..i]), bots[i].score;
      SumOf(bots[..i + 1]) == if sum.Some? && score.Some? then Some(sum.value + score.value) else None
    ensures SumOf([]) == Some(0.0)
  {
    var longer := bots[..i + 1];
    assert longer[..i] == bots[..i] && longer[i] == bots[i];
    assert AllNumbers(longer) <==> AllNumbers(bots[..i]) && bots[i].score.Some?;
  }

  lemma EliteOneMore(rule: EliteRule, average: Option<real>, bots: seq<ScoredBot>, i: nat)
    requires i < |bots|
    ensures EliteOf(rule, average, bots[..i + 1])
            == EliteOf(rule, average, bots[..i]) + (if IsElite(rule, average, bots[i]) then [bots[i]] else [])
    ensures EliteOf(rule, average, []) == []
  {
    hide IsElite;
    assert bots[..i + 1][..i] == bots[..i];
  }

  lemma AverageOfSum(bots: seq<ScoredBot>)
    requires bots != []
    ensures Average(bots) == if SumOf(bots).Some? then Some(SumOf(bots).value / |bots| as real) else None
  {
  }

  /** The selection loop, condition by condition. */
  method IdentifyElite(rule: EliteRule, bots: seq<ScoredBot>) returns (elite: seq<ScoredBot>)
    ensures elite == EliteBots(rule, bots)
  {
    elite := [];
    if bots == [] {
      return;
    }
    hide SumOf, EliteOf, Average, ErrorRate, AtMost, BarOf;
    var sum, i := Some(0.0), 0;
    SumOneMore(bots, 0);
    while i < |bots|
      invariant 0 <= i <= |bots|
      invariant sum == SumOf(bots[..i])
    {
      SumOneMore(bots, i);
      sum := if sum.Some? && bots[i].score.Some? then Some(sum.value + bots[i].score.value) else None;
      i := i + 1;
    }
    assert bots[..i] == bots;
    AverageOfSum(bots);
    var average := if sum.Some? then Some(sum.value / |bots| as real) else None;
    i := 0;
    EliteOneMore(rule, average, bots, 0);
    while i < |bots|
      invariant 0 <= i <= |bots|
      invariant elite == EliteOf(rule, average, bots[..i])
    {
      EliteOneMore(rule, average, bots, i);
      var b := bots[i];
      i := i + 1;
      if AtMost(b.score, Some(rule.threshold)) { continue; }
      if AtMost(b.score, BarOf(rule, average)) { continue; }
      if ErrorRate(b) >= rule.errorCeiling { continue; }
      elite := elite + [b];
    }
    assert bots[..i] == bots;
  }

  // ----- Payload ------------------------------------------------------------

  type Key = string
  type ToolName = string

  /** One accepted tool call; the request summary lists its argument keys with their values. */
  datatype Invocation<V> = Invocation(
    toolName: ToolName,
    durationMs: Option<nat>,
    totalTokens: Option<int>,
    promptTokens: Option<int>,
    completionTokens: Option<int>,
    requestSummary: Option<seq<(Key, V)>>)

  datatype TokenStat = TokenStat(total: int, prompt: int, completion: int, count: nat)

  const NO_TOKENS := TokenStat(0, 0, 0, 0)

  datatype Timing = Timing(total: nat, average: real, min: nat, max: nat, count: nat)

  /** How often the tasks of the bot were attempted. */
  datatype Retries = Retries(tasks: nat, retried: nat, most: nat, average: real)

  datatype Payload = Payload(
    toolCallSequence: seq<ToolName>,
    argumentPatterns: map<ToolName, seq<Key>>,
    retryStrategy: Retries,
    timing: Timing,
    tokenDistribution: map<ToolName, TokenStat>)

  function Keys<V>(summary: seq<(Key, V)>): (keys: seq<Key>)
    ensures |keys| == |summary| && forall i :: 0 <= i < |keys| ==> keys[i] == summary[i].0
  {
    if summary == [] then [] else Keys(summary[..|summary| - 1]) + [summary[|summary| - 1].0]
  }

  /** Appends the keys that are not there yet, in order. */
  function AddKeys(known: seq<Key>, keys: seq<Key>): seq<Key> {
    if keys == [] then known
    else
      var before := AddKeys(known, keys[..|keys| - 1]);
      var key := keys[|keys| - 1];
      if key in before then before else before + [key]
  }

  /** The keys seen for one tool, in order of first appearance. */
  function KeysFor<V>(invs: seq<Invocation<V>>, tool: ToolName): seq<Key> {
    if invs == [] then []
    else
      var before := KeysFor(invs[..|invs| - 1], tool);
      var inv := invs[|invs| - 1];
      if inv.toolName == tool && inv.requestSummary.Some? then AddKeys(before, Keys(inv.requestSummary.value))
      else before
  }

  function Add(s: TokenStat, total: int, prompt: int, completion: int): TokenStat {
    TokenStat(s.total + total, s.prompt + prompt, s.completion + completion, s.count + 1)
  }

  function AddTokens<V>(s: TokenStat, inv: Invocation<V>): TokenStat {
    Add(s, inv.totalTokens.GetOr(0), inv.promptTokens.GetOr(0), inv.completionTokens.GetOr(0))
  }

  function TokensFor<V>(invs: seq<Invocation<V>>, tool: ToolName): TokenStat {
    if invs == [] then NO_TOKENS
    else
      var before := TokensFor(invs[..|invs| - 1], tool);
      if invs[|invs| - 1].toolName == tool then AddTokens(before, invs[|invs| - 1]) else before
  }

  function TokensTotal<V>(invs: seq<Invocation<V>>): TokenStat {
    if invs == [] then NO_TOKENS else AddTokens(TokensTotal(invs[..|invs| - 1]), invs[|invs| - 1])
  }

  function ToolSequence<V>(invs: seq<Invocation<V>>): seq<ToolName> {
    if invs == [] then [] else ToolSequence(invs[..|invs| - 1]) + [invs[|invs| - 1].toolName]
  }

  function Tools<V>(invs: seq<Invocation<V>>): set<ToolName> {
    if invs == [] then {} else Tools(invs[..|invs| - 1]) + {invs[|invs| - 1].toolName}
  }

  function ToolsWithSummary<V>(invs: seq<Invocation<V>>): set<ToolName> {
    if invs == [] then {}
    else
      ToolsWithSummary(invs[..|invs| - 1])
      + (if invs[|invs| - 1].requestSummary.Some? then {invs[|invs| - 1].toolName} else {})
  }

  function Durations<V>(invs: seq<Invocation<V>>): seq<nat> {
    if invs == [] then []
    else
      Durations(invs[..|invs| - 1])
      + (match invs[|invs| - 1].durationMs case None => [] case Some(d) => [d])
  }

  function Sum(ds: seq<nat>): nat {
    if ds == [] then 0 else Sum(ds[..|ds| - 1]) + ds[|ds| - 1]
  }

  function Least(ds: seq<nat>): nat
    requires ds != []
  {
    if |ds| == 1 then ds[0]
    else if Least(ds[..|ds| - 1]) < ds[|ds| - 1] then Least(ds[..|ds| - 1]) else ds[|ds| - 1]
  }

  function Greatest(ds: seq<nat>): nat
    requires ds != []
  {
    if |ds| == 1 then ds[0]
    else if Greatest(ds[..|ds| - 1]) > ds[|ds| - 1] then Greatest(ds[..|ds| - 1]) else ds[|ds| - 1]
  }

  function TimingOf(ds: seq<nat>): Timing {
    if ds == [] then Timing(0, 0.0, 0, 0, 0)
    else Timing(Sum(ds), Sum(ds) as real / |ds| as real, Least(ds), Greatest(ds), |ds|)
  }

  function RetriedOf(attempts: seq<nat>): nat {
    if attempts == [] then 0
    else RetriedOf(attempts[..|attempts| - 1]) + (if attempts[|attempts| - 1] > 1 then 1 else 0)
  }

  function RetriesOf(attempts: seq<nat>): Retries {
    if attempts == [] then Retries(0, 0, 0, 0.0)
    else Retries(|attempts|, RetriedOf(attempts), Greatest(attempts), Sum(attempts) as real / |attempts| as real)
  }

  function PatternsOf<V>(invs: seq<Invocation<V>>): map<ToolName, seq<Key>> {
    map tool | tool in ToolsWithSummary(invs) :: KeysFor(invs, tool)
  }

  function DistributionOf<V>(invs: seq<Invocation<V>>): map<ToolName, TokenStat> {
    map tool | tool in Tools(invs) :: TokensFor(invs, tool)
  }

  /** attempts lists the attempt counts of the tasks claimed by the bot. */
  function PayloadOf<V>(invs: seq<Invocation<V>>, attempts: seq<nat>): Payload {
    Payload(ToolSequence(invs), PatternsOf(invs), RetriesOf(attempts), TimingOf(Durations(invs)), DistributionOf(invs))
  }

  // ----- What the payload says ------------------------------------------------

  predicate NoDuplicates<T(==)>(s: seq<T>) {
    forall i, j :: 0 <= i < j < |s| ==> s[i] != s[j]
  }

  lemma {:induction false} AddKeysIsUnion(known: seq<Key>, keys: seq<Key>)
    requires NoDuplicates(known)
    ensures NoDuplicates(AddKeys(known, keys))
    ensures forall k :: k in AddKeys(known, keys) <==> k in known || k in keys
  {
    if keys != [] {
      AddKeysIsUnion(known, keys[..|keys| - 1]);
      assert keys == keys[..|keys| - 1] + [keys[|keys| - 1]];
    }
  }

  predicate Mentions<V>(inv: Invocation<V>, tool: ToolName, key: Key) {
    && inv.toolName == tool && inv.requestSummary.Some?
    && exists i :: 0 <= i < |inv.requestSummary.value| && inv.requestSummary.value[i].0 == key
  }

  /** The key list of a tool is duplicate-free and is the union of the keys of its calls. */
  lemma {:induction false} KeyListIsUnion<V>(invs: seq<Invocation<V>>, tool: ToolName)
    ensures NoDuplicates(KeysFor(invs, tool))
    ensures forall key :: key in KeysFor(invs, tool) <==> exists inv :: inv in invs && Mentions(inv, tool, key)
  {
    if invs != [] {
      var init, inv := invs[..|invs| - 1], invs[|invs| - 1];
      KeyListIsUnion(init, tool);
      assert invs == init + [inv];
      if inv.toolName == tool && inv.requestSummary.Some? {
        var summary := inv.requestSummary.value;
        AddKeysIsUnion(KeysFor(init, tool), Keys(summary));
        forall key
          ensures key in Keys(summary) <==> Mentions(inv, tool, key)
        {
          if key in Keys(summary) {
            var i :| 0 <= i < |summary| && Keys(summary)[i] == key;
            assert summary[i].0 == key;
          }
          if Mentions(inv, tool, key) {
            var i :| 0 <= i < |summary| && summary[i].0 == key;
            assert Keys(summary)[i] == key;
          }
        }
      }
    }
  }

  function Plus(a: TokenStat, b: TokenStat): TokenStat {
    TokenStat(a.total + b.total, a.prompt + b.prompt, a.completion + b.completion, a.count + b.count)
  }

  function SumOver<V>(invs: seq<Invocation<V>>, tools: seq<ToolName>): TokenStat {
    if tools == [] then NO_TOKENS
    else Plus(SumOver(invs, tools[..|tools| - 1]), TokensFor(invs, tools[|tools| - 1]))
  }

  lemma {:induction false} SumOverGrows<V>(invs: seq<Invocation<V>>, tools: seq<ToolName>)
    requires invs != [] && NoDuplicates(tools)
    ensures
      var init, inv := invs[..|invs| - 1], invs[|invs| - 1];
      SumOver(invs, tools) ==
      if inv.toolName in tools then AddTokens(SumOver(init, tools), inv) else SumOver(init, tools)
  {
    if tools != [] {
      SumOverGrows(invs, tools[..|tools| - 1]);
      assert tools == tools[..|tools| - 1] + [tools[|tools| - 1]];
    }
  }

  lemma {:induction false} NothingToSum<V>(invs: seq<Invocation<V>>, tools: seq<ToolName>)
    requires invs == []
    ensures SumOver(invs, tools) == NO_TOKENS
  {
    if tools != [] {
      NothingToSum(invs, tools[..|tools| - 1]);
      assert TokensFor(invs, tools[|tools| - 1]) == NO_TOKENS;
    }
  }

  /** The per-tool totals and counts of a payload add up to those of all calls. */
  lemma {:induction false} TokensAddUp<V>(invs: seq<Invocation<V>>, tools: seq<ToolName>)
    requires NoDuplicates(tools) && forall t :: t in Tools(invs) ==> t in tools
    ensures SumOver(invs, tools) == TokensTotal(invs)
    ensures TokensTotal(invs).count == |invs|
  {
    if invs == [] {
      NothingToSum(invs, tools);
    } else {
      TokensAddUp(invs[..|invs| - 1], tools);
      SumOverGrows(invs, tools);
    }
  }

  /** Same calls up to the argument values. */
  predicate SameButValues<V>(a: Invocation<V>, b: Invocation<V>) {
    && a.toolName == b.toolName && a.durationMs == b.durationMs
    && a.totalTokens == b.totalTokens && a.promptTokens == b.promptTokens
    && a.completionTokens == b.completionTokens
    && a.requestSummary.Some? == b.requestSummary.Some?
    && (a.requestSummary.Some? ==> Keys(a.requestSummary.value) == Keys(b.requestSummary.value))
  }

  /** No argument value leaks into the payload. */
  lemma {:induction false} PayloadIgnoresValues<V>(
    a: seq<Invocation<V>>, b: seq<Invocation<V>>, attempts: seq<nat>)
    requires |a| == |b| && forall i :: 0 <= i < |a| ==> SameButValues(a[i], b[i])
    ensures PayloadOf(a, attempts) == PayloadOf(b, attempts)
  {
    PartsIgnoreValues(a, b);
    forall tool
      ensures KeysFor(a, tool) == KeysFor(b, tool) && TokensFor(a, tool) == TokensFor(b, tool)
    {
      ToolIgnoresValues(a, b, tool);
    }
  }

  lemma {:induction false} PartsIgnoreValues<V>(a: seq<Invocation<V>>, b: seq<Invocation<V>>)
    requires |a| == |b| && forall i :: 0 <= i < |a| ==> SameButValues(a[i], b[i])
    ensures ToolSequence(a) == ToolSequence(b) && Durations(a) == Durations(b)
    ensures Tools(a) == Tools(b) && ToolsWithSummary(a) == ToolsWithSummary(b)
  {
    if a != [] {
      assert SameButValues(a[|a| - 1], b[|b| - 1]);
      PartsIgnoreValues(a[..|a| - 1], b[..|b| - 1]);
    }
  }

  lemma {:induction false} ToolIgnoresValues<V>(a: seq<Invocation<V>>, b: seq<Invocation<V>>, tool: ToolName)
    requires |a| == |b| && forall i :: 0 <= i < |a| ==> SameButValues(a[i], b[i])
    ensures KeysFor(a, tool) == KeysFor(b, tool) && TokensFor(a, tool) == TokensFor(b, tool)
  {
    if a != [] {
      assert SameButValues(a[|a| - 1], b[|b| - 1]);
      ToolIgnoresValues(a[..|a| - 1], b[..|b| - 1], tool);
    }
  }

  lemma {:induction false} WithinExtremes(ds: seq<nat>, d: nat)
    requires d in ds
    ensures Least(ds) <= d <= Greatest(ds)
    ensures Least(ds) in ds && Greatest(ds) in ds
  {
    if |ds| > 1 {
      var init := ds[..|ds| - 1];
      assert ds == init + [ds[|ds| - 1]];
      WithinExtremes(init, if d in init then d else init[0]);
    }
  }

  lemma {:induction false} SumWithin(ds: seq<nat>, lo: nat, hi: nat)
    requires forall i :: 0 <= i < |ds| ==> lo <= ds[i] <= hi
    ensures Times(|ds|, lo as real) <= Sum(ds) as real <= Times(|ds|, hi as real)
  {
    hide Times;
    if ds == [] {
      OneMoreTime(0, lo as real);
      OneMoreTime(0, hi as real);
    } else {
      var n := |ds| - 1;
      SumWithin(ds[..n], lo, hi);
      OneMoreTime(n, lo as real);
      OneMoreTime(n, hi as real);
    }
  }

  lemma AverageWithin(total: real, count: nat, lo: real, hi: real)
    requires count > 0 && Times(count, lo) <= total <= Times(count, hi)
    ensures lo <= total / count as real <= hi
  {
    assert total / count as real * count as real == total;
  }

  /** The timing profile: both extremes were measured, and everything lies between them. */
  lemma TimingIsSound(ds: seq<nat>)
    requires ds != []
    ensures
      var t := TimingOf(ds);
      && t.min in ds && t.max in ds && (forall d :: d in ds ==> t.min <= d <= t.max)
      && t.min as real <= t.average <= t.max as real
  {
    WithinExtremes(ds, ds[0]);
    forall i | 0 <= i < |ds|
      ensures Least(ds) <= ds[i] <= Greatest(ds)
    {
      WithinExtremes(ds, ds[i]);
    }
    SumWithin(ds, Least(ds), Greatest(ds));
    AverageWithin(Sum(ds) as real, |ds|, Least(ds) as real, Greatest(ds) as real);
  }

  lemma {:induction false} SomeRetried(attempts: seq<nat>)
    ensures 0 <= RetriedOf(attempts) <= |attempts|
    ensures RetriedOf(attempts) == 0 <==> forall i :: 0 <= i < |attempts| ==> attempts[i] <= 1
  {
    if attempts != [] {
      SomeRetried(attempts[..|attempts| - 1]);
    }
  }

  /** The retry profile: nothing was retried exactly when no task needed more than one attempt. */
  lemma RetriesAreSound(attempts: seq<nat>)
    ensures
      var r := RetriesOf(attempts);
      && r.tasks == |attempts| && r.retried <= r.tasks && r.average <= r.most as real
      && (r.retried == 0 <==> r.most <= 1)
      && (if attempts == [] then r.most == 0 else r.most in attempts && forall n :: n in attempts ==> n <= r.most)
  {
    SomeRetried(attempts);
    if attempts != [] {
      TimingIsSound(attempts);
      assert TimingOf(attempts).max == Greatest(attempts);
      forall i | 0 <= i < |attempts|
        ensures attempts[i] <= Greatest(attempts)
      {
        assert attempts[i] in attempts;
      }
    }
  }

  datatype Field = AllTokens | PromptTokens | CompletionTokens | CallCount | Milliseconds | TimedCalls

  /** What one call adds to a figure of the payload. */
  function Part<V>(field: Field, inv: Invocation<V>): int {
    match field
    case AllTokens => inv.totalTokens.GetOr(0)
    case PromptTokens => inv.promptTokens.GetOr(0)
    case CompletionTokens => inv.completionTokens.GetOr(0)
    case CallCount => 1
    case Milliseconds => inv.durationMs.GetOr(0)
    case TimedCalls => if inv.durationMs.Some? then 1 else 0
  }

  function PartOf<V>(field: Field): Invocation<V> -> int {
    (inv: Invocation<V>) => Part(field, inv)
  }

  function PartOfTool<V>(field: Field, tool: ToolName): Invocation<V> -> int {
    (inv: Invocation<V>) => if inv.toolName == tool then Part(field, inv) else 0
  }

  function Attempts(n: nat): int { n }
  function Retried(n: nat): int { if n >= 2 then 1 else 0 }

  /** The token figures of a tool are the sums over its own calls, field by field. */
  lemma {:induction false} TokensAreSums<V>(invs: seq<Invocation<V>>, tool: ToolName)
    ensures
      var t := TokensFor(invs, tool);
      && t.total == SumBy(invs, PartOfTool(AllTokens, tool))
      && t.prompt == SumBy(invs, PartOfTool(PromptTokens, tool))
      && t.completion == SumBy(invs, PartOfTool(CompletionTokens, tool))
      && t.count == SumBy(invs, PartOfTool(CallCount, tool))
  {
    if invs != [] {
      var n := |invs| - 1;
      TokensAreSums(invs[..n], tool);
      OneMoreSummand(invs, PartOfTool(AllTokens, tool));
      OneMoreSummand(invs, PartOfTool(PromptTokens, tool));
      OneMoreSummand(invs, PartOfTool(CompletionTokens, tool));
      OneMoreSummand(invs, PartOfTool(CallCount, tool));
      hide SumBy;
    }
  }

  lemma OneMoreSummand<V>(invs: seq<Invocation<V>>, f: Invocation<V> -> int)
    requires invs != []
    ensures SumBy(invs, f) == SumBy(invs[..|invs| - 1], f) + f(invs[|invs| - 1])
  {
  }

  lemma {:induction false} SumIsSumBy(ds: seq<nat>)
    ensures Sum(ds) == SumBy(ds, Attempts) && RetriedOf(ds) == SumBy(ds, Retried)
  {
    if ds != [] {
      SumIsSumBy(ds[..|ds| - 1]);
    }
  }

  lemma {:induction false} DurationsAddUp<V>(invs: seq<Invocation<V>>)
    ensures Sum(Durations(invs)) == SumBy(invs, PartOf(Milliseconds))
    ensures |Durations(invs)| == SumBy(invs, PartOf(TimedCalls))
  {
    if invs != [] {
      var init, last := invs[..|invs| - 1], invs[|invs| - 1];
      DurationsAddUp(init);
      OneMoreSummand(invs, PartOf(Milliseconds));
      OneMoreSummand(invs, PartOf(TimedCalls));
      if last.durationMs.Some? {
        SumSnoc(Durations(init), last.durationMs.value);
      } else {
        assert Durations(invs) == Durations(init);
      }
    }
  }

  lemma SumSnoc(ds: seq<nat>, d: nat)
    ensures Sum(ds + [d]) == Sum(ds) + d
  {
    assert (ds + [d])[..|ds|] == ds;
  }

  lemma {:induction false} DurationsAreMeasured<V>(invs: seq<Invocation<V>>, d: nat)
    ensures d in Durations(invs) <==> exists inv :: inv in invs && inv.durationMs == Some(d)
  {
    if invs != [] {
      var init, last := invs[..|invs| - 1], invs[|invs| - 1];
      DurationsAreMeasured(init, d);
      assert invs == init + [last];
    }
  }

  lemma {:induction false} NamesInOrder<V>(invs: seq<Invocation<V>>)
    ensures |ToolSequence(invs)| == |invs|
    ensures forall i :: 0 <= i < |invs| ==> ToolSequence(invs)[i] == invs[i].toolName
  {
    if invs != [] {
      NamesInOrder(invs[..|invs| - 1]);
    }
  }

  lemma {:induction false} ToolsAreThoseCalled<V>(invs: seq<Invocation<V>>, tool: ToolName)
    ensures tool in Tools(invs) <==> exists inv :: inv in invs && inv.toolName == tool
    ensures tool in ToolsWithSummary(invs) <==>
            exists inv :: inv in invs && inv.toolName == tool && inv.requestSummary.Some?
  {
    if invs != [] {
      var init, last := invs[..|invs| - 1], invs[|invs| - 1];
      ToolsAreThoseCalled(init, tool);
      assert invs == init + [last];
    }
  }

  /** Which tool has an entry in which part of the payload, and the order of the calls in the sequence. */
  lemma PayloadEntries<V>(invs: seq<Invocation<V>>, attempts: seq<nat>, tool: ToolName)
    ensures
      var p := PayloadOf(invs, attempts);
      && |p.toolCallSequence| == |invs|
      && (forall i :: 0 <= i < |invs| ==> p.toolCallSequence[i] == invs[i].toolName)
      && (tool in p.tokenDistribution <==> exists inv :: inv in invs && inv.toolName == tool)
      && (tool in p.argumentPatterns <==>
            exists inv :: inv in invs && inv.toolName == tool && inv.requestSummary.Some?)
  {
    hide RetriesOf, TimingOf, TokensFor, KeysFor, Tools, ToolsWithSummary, ToolSequence, Durations;
    NamesInOrder(invs);
    ToolsAreThoseCalled(invs, tool);
  }

  lemma ShareTimesCount(part: real, count: nat)
    requires count > 0
    ensures part / count as real * count as real == part
  {
  }

  lemma TimingFigures(ds: seq<nat>)
    ensures TimingOf(ds).total == Sum(ds) && TimingOf(ds).count == |ds|
    ensures TimingOf(ds).average * |ds| as real == Sum(ds) as real
  {
    hide Least, Greatest;
    if ds != [] {
      ShareTimesCount(Sum(ds) as real, |ds|);
    }
  }

  lemma RetryFigures(attempts: seq<nat>)
    ensures RetriesOf(attempts).tasks == |attempts| && RetriesOf(attempts).retried == RetriedOf(attempts)
    ensures RetriesOf(attempts).average * |attempts| as real == Sum(attempts) as real
  {
    hide Greatest;
    if attempts != [] {
      ShareTimesCount(Sum(attempts) as real, |attempts|);
    }
  }

  /** The figures of the payload as sums over the calls and over the attempts. */
  lemma PayloadFigures<V>(invs: seq<Invocation<V>>, attempts: seq<nat>)
    ensures
      var t := PayloadOf(invs, attempts).timing;
      && t.total == SumBy(invs, PartOf(Milliseconds)) && t.count == SumBy(invs, PartOf(TimedCalls))
      && t.average * t.count as real == t.total as real
    ensures
      var r := PayloadOf(invs, attempts).retryStrategy;
      && r.tasks == |attempts| && r.retried == SumBy(attempts, Retried)
      && r.average * r.tasks as real == SumBy(attempts, Attempts) as real
  {
    hide PatternsOf, DistributionOf, ToolSequence, Durations, TimingOf, RetriesOf, Sum, RetriedOf, SumBy;
    DurationsAddUp(invs);
    TimingFigures(Durations(invs));
    SumIsSumBy(attempts);
    RetryFigures(attempts);
  }

  /** The extremes of the payload are those of the calls that have a duration. */
  lemma PayloadExtremes<V>(invs: seq<Invocation<V>>, attempts: seq<nat>)
    ensures
      var t := PayloadOf(invs, attempts).timing;
      if forall inv :: inv in invs ==> inv.durationMs.None? then t == Timing(0, 0.0, 0, 0, 0)
      else
        && (exists inv :: inv in invs && inv.durationMs == Some(t.min))
        && (exists inv :: inv in invs && inv.durationMs == Some(t.max))
        && forall inv :: inv in invs && inv.durationMs.Some? ==> t.min <= inv.durationMs.value <= t.max
  {
    hide PatternsOf, DistributionOf, ToolSequence, Durations, Sum, RetriedOf, Least, Greatest;
    var ds := Durations(invs);
    forall inv | inv in invs && inv.durationMs.Some?
      ensures inv.durationMs.value in ds
    {
      DurationsAreMeasured(invs, inv.durationMs.value);
    }
    if ds != [] {
      TimingIsSound(ds);
      DurationsAreMeasured(invs, Least(ds));
      DurationsAreMeasured(invs, Greatest(ds));
    }
  }

  lemma {:induction false} KnownFirst(known: seq<Key>, keys: seq<Key>)
    ensures known <= AddKeys(known, keys)
  {
    if keys != [] {
      KnownFirst(known, keys[..|keys| - 1]);
    }
  }

  lemma {:induction false} AddKeysExtends(known: seq<Key>, a: seq<Key>, b: seq<Key>)
    ensures known <= AddKeys(known, a) <= AddKeys(known, a + b)
  {
    if b != [] {
      assert (a + b)[..|a + b| - 1] == a + b[..|b| - 1];
      AddKeysExtends(known, a, b[..|b| - 1]);
    } else {
      assert a + b == a;
      KnownFirst(known, a);
    }
  }

  /** A key keeps its place in the list of its tool: later calls only append. */
  lemma {:induction false} KeysKeepTheirPlace<V>(a: seq<Invocation<V>>, b: seq<Invocation<V>>, tool: ToolName)
    ensures KeysFor(a, tool) <= KeysFor(a + b, tool)
  {
    hide AddKeys;
    if b == [] {
      assert a + b == a;
    } else {
      var inv := b[|b| - 1];
      assert (a + b)[..|a + b| - 1] == a + b[..|b| - 1];
      KeysKeepTheirPlace(a, b[..|b| - 1], tool);
      if inv.requestSummary.Some? {
        KnownFirst(KeysFor(a + b[..|b| - 1], tool), Keys(inv.requestSummary.value));
      }
    }
  }

  // ----- Building it ----------------------------------------------------------

  method BuildPayload<V>(invs: seq<Invocation<V>>, attempts: seq<nat>) returns (payload: Payload)
    ensures payload == PayloadOf(invs, attempts)
  {
    hide PatternsOf, DistributionOf, AddKeys;
    var sequence: seq<ToolName> := [];
    var argPatterns: map<ToolName, seq<Key>> := map[];
    var tokenDist: map<ToolName, TokenStat> := map[];
    var i := 0;
    NoCallsNoEntries(invs[..0]);
    while i < |invs|
      invariant 0 <= i <= |invs|
      invariant sequence == ToolSequence(invs[..i])
      invariant argPatterns == PatternsOf(invs[..i])
      invariant tokenDist == DistributionOf(invs[..i])
    {
      var inv := invs[i];
      var tool := inv.toolName;
      assert invs[..i + 1][..i] == invs[..i];
      OneMoreCall(invs[..i + 1]);
      sequence := sequence + [tool];
      if inv.requestSummary.Some? {
        var known := if tool in argPatterns then argPatterns[tool] else [];
        var all := AddUniqueKeys(known, inv.requestSummary.value);
        argPatterns := argPatterns[tool := all];
      }
      var stat := if tool in tokenDist then tokenDist[tool] else NO_TOKENS;
      tokenDist := tokenDist[tool := AddTokens(stat, inv)];
      i := i + 1;
    }
    assert invs[..i] == invs;
    payload := Payload(sequence, argPatterns, RetriesOf(attempts), TimingOf(Durations(invs)), tokenDist);
  }

  lemma NoCallsNoEntries<V>(invs: seq<Invocation<V>>)
    requires invs == []
    ensures PatternsOf(invs) == map[] && DistributionOf(invs) == map[]
  {
  }

  /** How one more call changes the two maps. */
  lemma OneMoreCall<V>(invs: seq<Invocation<V>>)
    requires invs != []
    ensures
      var init, inv := invs[..|invs| - 1], invs[|invs| - 1];
      PatternsOf(invs) ==
      if inv.requestSummary.None? then PatternsOf(init)
      else PatternsOf(init)[inv.toolName :=
          AddKeys(Lookup(PatternsOf(init), inv.toolName).GetOr([]), Keys(inv.requestSummary.value))]
    ensures
      var init, inv := invs[..|invs| - 1], invs[|invs| - 1];
      DistributionOf(invs) ==
      DistributionOf(init)[inv.toolName :=
        AddTokens(Lookup(DistributionOf(init), inv.toolName).GetOr(NO_TOKENS), inv)]
  {
    hide AddKeys;
    AbsentToolsAreEmpty(invs[..|invs| - 1], invs[|invs| - 1].toolName);
  }

  lemma {:induction false} AbsentToolsAreEmpty<V>(invs: seq<Invocation<V>>, tool: ToolName)
    ensures tool !in ToolsWithSummary(invs) ==> KeysFor(invs, tool) == []
    ensures tool !in Tools(invs) ==> TokensFor(invs, tool) == NO_TOKENS
  {
    if invs != [] {
      AbsentToolsAreEmpty(invs[..|invs| - 1], tool);
    }
  }

  /** Pushes each key that is not listed yet; the values are never read. */
  method AddUniqueKeys<V>(known: seq<Key>, summary: seq<(Key, V)>) returns (keys: seq<Key>)
    ensures keys == AddKeys(known, Keys(summary))
  {
    keys := known;
    var all := Keys(summary);
    var i := 0;
    while i < |all|
      invariant 0 <= i <= |all|
      invariant keys == AddKeys(known, all[..i])
    {
      assert all[..i + 1][..i] == all[..i];
      if all[i] !in keys {
        keys := keys + [all[i]];
      }
      i := i + 1;
    }
    assert all[..i] == all;
  }
}
