/**
 * The billing engine: messages are de-duplicated by id, each tool charge is
 * added to its execution's spend in one atomic script that also compares with
 * the cap, and budget alerts are latched per threshold. Handlers of different
 * messages interleave and may fail between their steps.
 */
module Billing {
  import opened Prelude

  type MessageId = string
  type ExecutionId = string

  datatype EventType = ToolInvoked | ExecutionCompleted | OtherEvent

  datatype Message = Message(
    id: MessageId,
    isBillingEvent: bool,
    eventType: EventType,
    executionId: Option<ExecutionId>,
    amountCents: Option<int>,
    userId: Option<string>)

  /** One run of the enforcement script, with what it returned. */
  datatype Charge = Charge(
    messageId: MessageId, executionId: ExecutionId, amount: nat, newTotal: int, capExceeded: bool)

  type Caps = map<ExecutionId, nat>

  // ----- Alerts -------------------------------------------------------------

  const THRESHOLDS: seq<real> := [0.5, 0.75, 0.9]

  /** The first threshold at or below the ratio that was not alerted yet. */
  function ShouldEmit(alerted: set<real>, cap: int, total: int): Option<real> {
    if cap == 0 then None
    else
      var ratio := (total as real) / (cap as real);
      if ratio >= THRESHOLDS[0] && THRESHOLDS[0] !in alerted then Some(THRESHOLDS[0])
      else if ratio >= THRESHOLDS[1] && THRESHOLDS[1] !in alerted then Some(THRESHOLDS[1])
      else if ratio >= THRESHOLDS[2] && THRESHOLDS[2] !in alerted then Some(THRESHOLDS[2])
      else None
  }

  datatype Call = Call(cap: int, total: int)

  predicate Reaches(c: Call, level: nat)
    requires 1 <= level <= |THRESHOLDS|
  {
    c.cap != 0 && (c.total as real) / (c.cap as real) >= THRESHOLDS[level - 1]
  }

  function Seen(sent: seq<real>): set<real> {
    set t | t in sent
  }

  lemma SeenOneMore(sent: seq<real>, t: real)
    ensures Seen(sent + [t]) == Seen(sent) + {t} && Seen([]) == {}
  {
  }

  /** The alerts of one execution over a list of checks, oldest first. */
  function Sent(calls: seq<Call>): seq<real> {
    if calls == [] then []
    else
      var before := Sent(calls[..|calls| - 1]);
      var c := calls[|calls| - 1];
      match ShouldEmit(Seen(before), c.cap, c.total)
      case None => before
      case Some(t) => before + [t]
  }

  /** The latch after the first level alerts. */
  function Latched(level: nat): set<real> {
    Seen(THRESHOLDS[..Min(level, |THRESHOLDS|)])
  }

  lemma EmitFollowsLevel(level: nat, cap: int, total: int)
    requires level <= |THRESHOLDS|
    ensures ShouldEmit(Latched(level), cap, total) ==
            if level < |THRESHOLDS| && Reaches(Call(cap, total), level + 1)
            then Some(THRESHOLDS[level]) else None
  {
    assert Latched(0) == {};
    assert THRESHOLDS[..1] == [0.5] && THRESHOLDS[..2] == [0.5, 0.75] && THRESHOLDS[..3] == [0.5, 0.75, 0.9];
    assert Latched(1) == {0.5} && Latched(2) == {0.5, 0.75} && Latched(3) == {0.5, 0.75, 0.9};
  }

  /** Whatever the totals and however they are reordered, alerts go out in order, each once. */
  lemma {:induction false} SentIsPrefix(calls: seq<Call>)
    ensures |Sent(calls)| <= |THRESHOLDS| && Sent(calls) == THRESHOLDS[..|Sent(calls)|]
  {
    hide ShouldEmit, Reaches, Seen;
    if calls != [] {
      var init, c := calls[..|calls| - 1], calls[|calls| - 1];
      SentIsPrefix(init);
      EmitFollowsLevel(|Sent(init)|, c.cap, c.total);
    }
  }

  lemma SeenIsLatched(sent: seq<real>)
    requires |sent| <= |THRESHOLDS| && sent == THRESHOLDS[..|sent|]
    ensures Seen(sent) == Latched(|sent|)
  {
  }

  /** Whether one more check latches something. */
  lemma EmitsIffReached(calls: seq<Call>, c: Call)
    ensures |Sent(calls)| <= |THRESHOLDS|
    ensures ShouldEmit(Seen(Sent(calls)), c.cap, c.total).Some? <==>
            |Sent(calls)| < |THRESHOLDS| && Reaches(c, |Sent(calls)| + 1)
  {
    hide Sent, ShouldEmit, Reaches, Seen, Latched;
    SentIsPrefix(calls);
    SeenIsLatched(Sent(calls));
    EmitFollowsLevel(|Sent(calls)|, c.cap, c.total);
  }

  /** Whether check c comes when exactly the first level thresholds are latched and reaches the next. */
  predicate ReachesNext(c: Call, level: nat) {
    level < |THRESHOLDS| && Reaches(c, level + 1)
  }

  lemma SentOneMore(calls: seq<Call>, c: Call)
    ensures |Sent(calls + [c])| == |Sent(calls)| + (if ReachesNext(c, |Sent(calls)|) then 1 else 0)
  {
    EmitsIffReached(calls, c);
    SentOfOneMore(calls, c);
    hide Sent, ShouldEmit, Reaches, Seen;
  }

  lemma SentStep(calls: seq<Call>)
    requires calls != []
    ensures
      var level := |Sent(calls[..|calls| - 1])|;
      |Sent(calls)| == level + (if ReachesNext(calls[|calls| - 1], level) then 1 else 0)
  {
    hide Sent, ReachesNext;
    var init, c := calls[..|calls| - 1], calls[|calls| - 1];
    assert calls == init + [c];
    SentOneMore(init, c);
  }

  /** Some checks, in this order, reach thresholds 1 to level. */
  ghost predicate Climbs(calls: seq<Call>, level: nat)
    requires level <= |THRESHOLDS|
  {
    level == 0 || exists i :: 0 <= i < |calls| && Reaches(calls[i], level) && Climbs(calls[..i], level - 1)
  }

  lemma {:induction false} SentNeverShrinks(calls: seq<Call>, i: nat)
    requires i <= |calls|
    ensures |Sent(calls[..i])| <= |Sent(calls)|
  {
    if i == |calls| {
      assert calls[..i] == calls;
    } else {
      SentNeverShrinks(calls[..|calls| - 1], i);
      assert calls[..|calls| - 1][..i] == calls[..i];
      SentStep(calls);
    }
  }

  lemma {:induction false} ClimbsWithMore(calls: seq<Call>, i: nat, level: nat)
    requires i <= |calls| && level <= |THRESHOLDS| && Climbs(calls[..i], level)
    ensures Climbs(calls, level)
  {
    if level > 0 {
      var j :| 0 <= j < i && Reaches(calls[..i][j], level) && Climbs(calls[..i][..j], level - 1);
      assert calls[..i][..j] == calls[..j];
      assert Reaches(calls[j], level);
    }
  }

  /**
   * A reached threshold is not always alerted, because a check sends one alert
   * at most. The first level alerts are all sent exactly when that many checks,
   * in order, reach thresholds 1 to level.
   */
  lemma {:induction false} AlertsSentIffClimbed(calls: seq<Call>, level: nat)
    requires level <= |THRESHOLDS|
    ensures |Sent(calls)| >= level <==> Climbs(calls, level)
  {
    if |Sent(calls)| >= level { SentMeansClimbed(calls, level); }
    if Climbs(calls, level) { ClimbedMeansSent(calls, level); }
  }

  lemma NothingSent()
    ensures Sent([]) == []
  {
  }

  lemma {:induction false} SentMeansClimbed(calls: seq<Call>, level: nat)
    requires level <= |THRESHOLDS| && |Sent(calls)| >= level
    ensures Climbs(calls, level)
  {
    hide Sent, Reaches;
    NothingSent();
    if level > 0 {
      var init := calls[..|calls| - 1];
      SentStep(calls);
      if |Sent(init)| >= level {
        SentMeansClimbed(init, level);
        ClimbsWithMore(calls, |calls| - 1, level);
      } else {
        SentMeansClimbed(init, level - 1);
        assert Reaches(calls[|calls| - 1], level);
      }
    }
  }

  lemma {:induction false} ClimbedMeansSent(calls: seq<Call>, level: nat)
    requires level <= |THRESHOLDS| && Climbs(calls, level)
    ensures |Sent(calls)| >= level
  {
    hide Sent, Reaches;
    if level > 0 {
      var i :| 0 <= i < |calls| && Reaches(calls[i], level) && Climbs(calls[..i], level - 1);
      ClimbedMeansSent(calls[..i], level - 1);
      var upTo := calls[..i + 1];
      assert upTo[..|upTo| - 1] == calls[..i];
      SentStep(upTo);
      SentNeverShrinks(calls, i + 1);
    }
  }

  /** A single charge that spends the whole budget announces half of it. */
  lemma OneJumpSendsOneAlert()
    ensures Sent([Call(100, 100)]) == [0.5]
    ensures Reaches(Call(100, 100), 3)
  {
    assert [Call(100, 100)][..0] == [];
    assert Sent([]) == [];
    SentStep([Call(100, 100)]);
    SentIsPrefix([Call(100, 100)]);
  }

  // ----- The protocol -------------------------------------------------------

  /** Failed gave up before the charge, Finished after it or because there was nothing to charge. */
  datatype Phase = Received | Charged(newTotal: int, capExceeded: bool) | Finished | Failed

  datatype Handler = Handler(message: Message, phase: Phase) {
    /** The charging part of the handler has run. */
    predicate Ran() {
      phase.Charged? || phase.Finished?
    }
  }

  /** A threshold that was latched; publishing it may fail, and then it is not tried again. */
  datatype Alert = Alert(executionId: ExecutionId, threshold: real, published: bool)

  /** One alert check: for which message, and what it compared. */
  datatype Check = Check(messageId: MessageId, executionId: ExecutionId, cap: int, total: int)

  /** The checks and alerts of one process from its start to its end, oldest first. */
  datatype Life = Life(alerts: seq<Alert>, checks: seq<Check>)

  /**
   * The latch, the checks and the alerts are those of the present process; earlier
   * lists what the processes before it left.
   */
  datatype State = State(
    processed: set<MessageId>,
    handlers: seq<Handler>,
    spend: map<ExecutionId, int>,
    charges: seq<Charge>,
    alerted: map<ExecutionId, set<real>>,
    alerts: seq<Alert>,
    checks: seq<Check>,
    earlier: seq<Life>)

  const INITIAL := State({}, [], map[], [], map[], [], [], [])

  datatype Event =
    | Receive(message: Message)
    | Enforce(h: nat)
    | CheckAlert(h: nat, budgetCap: int, published: bool)
    | Fail(h: nat)
    | Restart

  predicate Chargeable(m: Message) {
    m.isBillingEvent && m.eventType.ToolInvoked? && m.executionId.Some? && m.amountCents.GetOr(0) > 0
  }

  function SetPhase(s: State, h: nat, phase: Phase): State
    requires h < |s.handlers|
  {
    s.(handlers := s.handlers[h := s.handlers[h].(phase := phase)])
  }

  /** SET processed:id NX. */
  function ReceiveStep(s: State, m: Message): State {
    if m.id in s.processed then s
    else s.(processed := s.processed + {m.id},
            handlers := s.handlers + [Handler(m, Received)])
  }

  /** The enforcement script: INCRBY and the comparison with the cap, in one step. */
  function EnforceScript(caps: Caps, spend: map<ExecutionId, int>, e: ExecutionId, amount: nat):
    (map<ExecutionId, int>, int, bool)
  {
    var newTotal := Lookup(spend, e).GetOr(0) + amount;
    (spend[e := newTotal], newTotal, e in caps && newTotal > caps[e])
  }

  function EnforceStep(caps: Caps, s: State, h: nat): State
    requires h < |s.handlers|
  {
    var m := s.handlers[h].message;
    if !s.handlers[h].phase.Received? then s
    else if !Chargeable(m) then SetPhase(s, h, Finished)
    else
      var e, amount := m.executionId.value, m.amountCents.value;
      var (spend, newTotal, exceeded) := EnforceScript(caps, s.spend, e, amount);
      SetPhase(s, h, Charged(newTotal, exceeded))
      .(spend := spend, charges := s.charges + [Charge(m.id, e, amount, newTotal, exceeded)])
  }

  function AlertStep(s: State, h: nat, budgetCap: int, published: bool): State
    requires h < |s.handlers|
  {
    var handler := s.handlers[h];
    if !handler.phase.Charged? || handler.message.executionId.None? then s
    else
      var e := handler.message.executionId.value;
      var s' := SetPhase(s, h, Finished);
      if handler.message.userId.GetOr("") == "" || budgetCap <= 0 then s'
      else
        var alerted := Lookup(s.alerted, e).GetOr({});
        var call := Call(budgetCap, handler.phase.newTotal);
        var checked :=
          s'.(checks := s.checks + [Check(handler.message.id, e, budgetCap, handler.phase.newTotal)]);
        match ShouldEmit(alerted, call.cap, call.total)
        case None => checked
        case Some(t) =>
          checked.(alerted := s.alerted[e := alerted + {t}], alerts := s.alerts + [Alert(e, t, published)])
  }

  function FailPhase(p: Phase): Phase {
    match p
    case Received => Failed
    case Charged(_, _) => Finished
    case _ => p
  }

  function FailStep(s: State, h: nat): State
    requires h < |s.handlers|
  {
    SetPhase(s, h, FailPhase(s.handlers[h].phase))
  }

  function FailAll(handlers: seq<Handler>): (failed: seq<Handler>)
    ensures |failed| == |handlers|
    ensures forall h :: 0 <= h < |failed| ==> failed[h] == Handler(handlers[h].message, FailPhase(handlers[h].phase))
  {
    seq(|handlers|, h requires 0 <= h < |handlers| => Handler(handlers[h].message, FailPhase(handlers[h].phase)))
  }

  /** The process goes: its handlers fail and the latch is forgotten. Redis keeps ids and spend. */
  function RestartStep(s: State): State {
    s.(handlers := FailAll(s.handlers), alerted := map[], alerts := [], checks := [],
       earlier := s.earlier + [Life(s.alerts, s.checks)])
  }

  function Step(caps: Caps, s: State, event: Event): State {
    match event
    case Receive(m) => ReceiveStep(s, m)
    case Enforce(h) => if h < |s.handlers| then EnforceStep(caps, s, h) else s
    case CheckAlert(h, cap, published) => if h < |s.handlers| then AlertStep(s, h, cap, published) else s
    case Fail(h) => if h < |s.handlers| then FailStep(s, h) else s
    case Restart => RestartStep(s)
  }

  function Run(caps: Caps, events: seq<Event>): State {
    if events == [] then INITIAL
    else Step(caps, Run(caps, events[..|events| - 1]), events[|events| - 1])
  }

  // ----- Invariant ----------------------------------------------------------

  function AmountOn(e: ExecutionId): Charge -> int {
    (c: Charge) => if c.executionId == e then c.amount else 0
  }

  /** What the charges of one execution add up to. */
  function SpentOn(charges: seq<Charge>, e: ExecutionId): int {
    SumBy(charges, AmountOn(e))
  }

  ghost predicate ChargesSound(caps: Caps, charges: seq<Charge>) {
    forall i :: 0 <= i < |charges| ==>
      var c := charges[i];
      && c.amount > 0
      && c.newTotal == SpentOn(charges[..i + 1], c.executionId)
      && c.capExceeded == (c.executionId in caps && c.newTotal > caps[c.executionId])
  }

  ghost predicate MessagesOnce(s: State) {
    && (forall h :: 0 <= h < |s.handlers| ==> s.handlers[h].message.id in s.processed)
    && (forall h, k :: 0 <= h < k < |s.handlers| ==> s.handlers[h].message.id != s.handlers[k].message.id)
    && (forall i, j :: 0 <= i < j < |s.charges| ==> s.charges[i].messageId != s.charges[j].messageId)
    && (forall i :: 0 <= i < |s.charges| ==> s.charges[i].messageId in s.processed)
    && (forall i, h :: 0 <= i < |s.charges| && 0 <= h < |s.handlers| && s.handlers[h].phase.Received? ==>
          s.charges[i].messageId != s.handlers[h].message.id)
  }

  ghost predicate SpendIsSum(s: State) {
    forall e: ExecutionId :: Lookup(s.spend, e).GetOr(0) == SpentOn(s.charges, e)
  }

  /** What a message costs execution e once its handler ran. */
  function CostOn(e: ExecutionId): Handler -> int {
    (h: Handler) =>
      var m := h.message;
      var amount := m.amountCents.GetOr(0);
      if h.Ran() && m.isBillingEvent && m.eventType == ToolInvoked && m.executionId == Some(e) && amount > 0
      then amount else 0
  }

  ghost predicate SpendIsCost(s: State) {
    forall e: ExecutionId :: Lookup(s.spend, e).GetOr(0) == SumBy(s.handlers, CostOn(e))
  }

  /** c is the charge of the message of h. */
  predicate Bills(c: Charge, h: Handler) {
    && h.Ran() && Chargeable(h.message) && h.message.id == c.messageId
    && h.message.executionId == Some(c.executionId) && h.message.amountCents == Some(c.amount)
  }

  ghost predicate ChargeBilled(s: State, i: nat)
    requires i < |s.charges|
  {
    exists h :: 0 <= h < |s.handlers| && Bills(s.charges[i], s.handlers[h])
  }

  ghost predicate HandlerBilled(s: State, h: nat)
    requires h < |s.handlers|
  {
    exists i :: 0 <= i < |s.charges| && Bills(s.charges[i], s.handlers[h])
  }

  /** Charges and handlers that ran on chargeable messages correspond. */
  ghost predicate AllBilled(s: State) {
    && (forall i :: 0 <= i < |s.charges| ==> ChargeBilled(s, i))
    && (forall h :: 0 <= h < |s.handlers| && s.handlers[h].Ran() && Chargeable(s.handlers[h].message) ==>
          HandlerBilled(s, h))
  }

  /** The thresholds latched for an execution, in order. */
  function AlertsOf(alerts: seq<Alert>, e: ExecutionId): seq<real> {
    if alerts == [] then []
    else
      AlertsOf(alerts[..|alerts| - 1], e)
      + (if alerts[|alerts| - 1].executionId == e then [alerts[|alerts| - 1].threshold] else [])
  }

  /** Those that went out. */
  function PublishedOf(alerts: seq<Alert>, e: ExecutionId): seq<real> {
    if alerts == [] then []
    else
      var last := alerts[|alerts| - 1];
      PublishedOf(alerts[..|alerts| - 1], e)
      + (if last.executionId == e && last.published then [last.threshold] else [])
  }

  /** What the checks of an execution compared. */
  function CallsOf(checks: seq<Check>, e: ExecutionId): seq<Call> {
    if checks == [] then []
    else
      var last := checks[|checks| - 1];
      CallsOf(checks[..|checks| - 1], e) + (if last.executionId == e then [Call(last.cap, last.total)] else [])
  }

  function ChecksOf(life: Life, e: ExecutionId): seq<Call> {
    CallsOf(life.checks, e)
  }

  /** The processes of a run, the present one last. */
  function Lives(s: State): seq<Life> {
    s.earlier + [Life(s.alerts, s.checks)]
  }

  ghost predicate AlertsFollowChecks(s: State) {
    forall e: ExecutionId :: AlertsFollow(s, e)
  }

  ghost predicate AlertsFollow(s: State, e: ExecutionId) {
    var sent := Sent(CallsOf(s.checks, e));
    && AlertsOf(s.alerts, e) == sent
    && Lookup(s.alerted, e).GetOr({}) == Seen(sent)
  }

  ghost predicate EarlierSound(s: State) {
    forall i, e: ExecutionId :: 0 <= i < |s.earlier| ==>
      AlertsOf(s.earlier[i].alerts, e) == Sent(ChecksOf(s.earlier[i], e))
  }

  /** What a charged handler remembers is what its charge returned. */
  ghost predicate HandlerRemembers(s: State, h: nat)
    requires h < |s.handlers|
  {
    s.handlers[h].phase.Charged? ==>
      exists i :: 0 <= i < |s.charges| && Bills(s.charges[i], s.handlers[h])
                  && s.charges[i].newTotal == s.handlers[h].phase.newTotal
                  && s.charges[i].capExceeded == s.handlers[h].phase.capExceeded
  }

  /** A check compared what a charge of its message returned. */
  ghost predicate CheckBacked(charges: seq<Charge>, check: Check) {
    exists i :: 0 <= i < |charges| && charges[i].messageId == check.messageId
                && charges[i].executionId == check.executionId && charges[i].newTotal == check.total
  }

  ghost predicate AllBacked(charges: seq<Charge>, checks: seq<Check>) {
    forall k :: 0 <= k < |checks| ==> CheckBacked(charges, checks[k])
  }

  ghost predicate TotalsRemembered(s: State) {
    && (forall h :: 0 <= h < |s.handlers| ==> HandlerRemembers(s, h))
    && (forall i :: 0 <= i < |Lives(s)| ==> AllBacked(s.charges, Lives(s)[i].checks))
  }

  ghost predicate Inv(caps: Caps, s: State) {
    && MessagesOnce(s) && ChargesSound(caps, s.charges) && SpendIsSum(s) && SpendIsCost(s) && AllBilled(s)
    && TotalsRemembered(s) && AlertsFollowChecks(s) && EarlierSound(s)
  }

  /** Handlers move on without charging anything. */
  ghost predicate OnlyMoves(before: seq<Handler>, after: seq<Handler>) {
    && |after| == |before|
    && forall h :: 0 <= h < |before| ==>
         && after[h].message == before[h].message && after[h].Ran() == before[h].Ran()
         && (after[h].phase.Received? ==> before[h].phase.Received?)
  }

  lemma MovesKeepBilling(s: State, s': State)
    requires MessagesOnce(s) && SpendIsCost(s) && AllBilled(s) && OnlyMoves(s.handlers, s'.handlers)
    requires s'.processed == s.processed && s'.charges == s.charges && s'.spend == s.spend
    ensures MessagesOnce(s') && SpendIsCost(s') && AllBilled(s')
  {
    forall e: ExecutionId
      ensures Lookup(s'.spend, e).GetOr(0) == SumBy(s'.handlers, CostOn(e))
    {
      assert Lookup(s.spend, e).GetOr(0) == SumBy(s.handlers, CostOn(e));
      SumByEqual(s.handlers, s'.handlers, CostOn(e));
    }
    hide MessagesOnce, SpendIsCost;
    MovesKeepMessages(s, s');
    forall i | 0 <= i < |s'.charges|
      ensures ChargeBilled(s', i)
    {
      assert ChargeBilled(s, i);
      var h :| 0 <= h < |s.handlers| && Bills(s.charges[i], s.handlers[h]);
      assert Bills(s'.charges[i], s'.handlers[h]);
    }
    forall h | 0 <= h < |s'.handlers| && s'.handlers[h].Ran() && Chargeable(s'.handlers[h].message)
      ensures HandlerBilled(s', h)
    {
      assert HandlerBilled(s, h);
      var i :| 0 <= i < |s.charges| && Bills(s.charges[i], s.handlers[h]);
      assert Bills(s'.charges[i], s'.handlers[h]);
    }
  }

  lemma MovesKeepMessages(s: State, s': State)
    requires MessagesOnce(s) && OnlyMoves(s.handlers, s'.handlers)
    requires s'.processed == s.processed && s'.charges == s.charges
    ensures MessagesOnce(s')
  {
  }

  lemma ReceiveKeepsBilling(s: State, m: Message)
    requires SpendIsCost(s) && AllBilled(s)
    ensures SpendIsCost(ReceiveStep(s, m)) && AllBilled(ReceiveStep(s, m))
  {
    var s' := ReceiveStep(s, m);
    if s'.handlers != s.handlers {
      forall e: ExecutionId
        ensures Lookup(s'.spend, e).GetOr(0) == SumBy(s'.handlers, CostOn(e))
      {
        assert Lookup(s.spend, e).GetOr(0) == SumBy(s.handlers, CostOn(e));
        SumByAppend(s.handlers, CostOn(e), Handler(m, Received));
      }
      forall i | 0 <= i < |s'.charges|
        ensures ChargeBilled(s', i)
      {
        assert ChargeBilled(s, i);
        var h :| 0 <= h < |s.handlers| && Bills(s.charges[i], s.handlers[h]);
        assert Bills(s'.charges[i], s'.handlers[h]);
      }
      forall h | 0 <= h < |s'.handlers| && s'.handlers[h].Ran() && Chargeable(s'.handlers[h].message)
        ensures HandlerBilled(s', h)
      {
        assert s'.handlers[h] == s.handlers[h] && HandlerBilled(s, h);
      }
    }
  }

  lemma EnforceKeepsCost(caps: Caps, s: State, h: nat)
    requires SpendIsCost(s) && h < |s.handlers|
    ensures SpendIsCost(EnforceStep(caps, s, h))
  {
    hide SumBy;
    var s' := EnforceStep(caps, s, h);
    forall e: ExecutionId
      ensures Lookup(s'.spend, e).GetOr(0) == SumBy(s'.handlers, CostOn(e))
    {
      assert Lookup(s.spend, e).GetOr(0) == SumBy(s.handlers, CostOn(e));
      SumByUpdate(s.handlers, CostOn(e), h, s'.handlers[h]);
      assert s'.handlers == s.handlers[h := s'.handlers[h]];
      assert CostOn(e)(s.handlers[h]) == 0 || s' == s;
    }
  }

  lemma EnforceKeepsBilled(caps: Caps, s: State, h: nat)
    requires AllBilled(s) && h < |s.handlers|
    ensures AllBilled(EnforceStep(caps, s, h))
  {
    var s' := EnforceStep(caps, s, h);
    if s.handlers[h].phase.Received? {
      if Chargeable(s.handlers[h].message) { assert Bills(s'.charges[|s.charges|], s'.handlers[h]); }
      forall i | 0 <= i < |s.charges|
        ensures ChargeBilled(s', i)
      {
        assert ChargeBilled(s, i);
        var k :| 0 <= k < |s.handlers| && Bills(s.charges[i], s.handlers[k]);
        assert s'.handlers[k] == s.handlers[k];
        assert Bills(s'.charges[i], s'.handlers[k]);
      }
      forall k | 0 <= k < |s.handlers| && k != h && s.handlers[k].Ran() && Chargeable(s.handlers[k].message)
        ensures HandlerBilled(s', k)
      {
        assert HandlerBilled(s, k);
        var i :| 0 <= i < |s.charges| && Bills(s.charges[i], s.handlers[k]);
        assert Bills(s'.charges[i], s'.handlers[k]);
      }
    }
  }

  lemma EnforceKeepsSpend(caps: Caps, s: State, h: nat)
    requires SpendIsSum(s) && h < |s.handlers|
    ensures SpendIsSum(EnforceStep(caps, s, h))
  {
    hide SumBy;
    var s' := EnforceStep(caps, s, h);
    forall e: ExecutionId
      ensures Lookup(s'.spend, e).GetOr(0) == SpentOn(s'.charges, e)
    {
      assert Lookup(s.spend, e).GetOr(0) == SpentOn(s.charges, e);
      if s'.charges != s.charges {
        var c := s'.charges[|s.charges|];
        SumByAppend(s.charges, AmountOn(e), c);
        assert AmountOn(e)(c) == if c.executionId == e then c.amount else 0;
      }
    }
  }

  lemma EnforceKeepsSound(caps: Caps, s: State, h: nat)
    requires ChargesSound(caps, s.charges) && SpendIsSum(s) && h < |s.handlers|
    ensures ChargesSound(caps, EnforceStep(caps, s, h).charges)
  {
    hide SumBy;
    var s' := EnforceStep(caps, s, h);
    if s'.charges != s.charges {
      EnforceKeepsSpend(caps, s, h);
      var c := s'.charges[|s.charges|];
      assert Lookup(s'.spend, c.executionId).GetOr(0) == SpentOn(s'.charges, c.executionId);
      forall i | 0 <= i < |s'.charges|
        ensures s'.charges[i].newTotal == SpentOn(s'.charges[..i + 1], s'.charges[i].executionId)
      {
        if i < |s.charges| {
          assert s'.charges[..i + 1] == s.charges[..i + 1];
        } else {
          assert s'.charges[..i + 1] == s'.charges;
        }
      }
    }
  }

  lemma ReceiveKeepsMessages(s: State, m: Message)
    requires MessagesOnce(s)
    ensures MessagesOnce(ReceiveStep(s, m))
  {
  }

  lemma EnforceKeepsMessages(caps: Caps, s: State, h: nat)
    requires MessagesOnce(s) && h < |s.handlers|
    ensures MessagesOnce(EnforceStep(caps, s, h))
  {
  }

  lemma AlertKeepsAlerts(s: State, h: nat, budgetCap: int, published: bool)
    requires AlertsFollowChecks(s) && h < |s.handlers|
    ensures AlertsFollowChecks(AlertStep(s, h, budgetCap, published))
  {
    hide ShouldEmit;
    var s' := AlertStep(s, h, budgetCap, published);
    forall e: ExecutionId
      ensures AlertsFollow(s', e)
    {
      assert AlertsFollow(s, e);
      if s'.checks != s.checks {
        var check := s'.checks[|s.checks|];
        if e == check.executionId {
          OneCheck(s, s', check, published);
        } else {
          OtherCheck(s, s', e, check);
        }
      }
    }
  }

  lemma CallsOfOneMore(checks: seq<Check>, check: Check, e: ExecutionId)
    ensures CallsOf(checks + [check], e)
            == CallsOf(checks, e) + (if check.executionId == e then [Call(check.cap, check.total)] else [])
  {
    assert (checks + [check])[..|checks|] == checks;
  }

  lemma OneCheck(s: State, s': State, check: Check, published: bool)
    requires AlertsFollow(s, check.executionId) && s'.checks == s.checks + [check]
    requires
      var e := check.executionId;
      var alerted := Lookup(s.alerted, e).GetOr({});
      match ShouldEmit(alerted, check.cap, check.total)
      case None => s'.alerted == s.alerted && s'.alerts == s.alerts
      case Some(t) =>
        s'.alerted == s.alerted[e := alerted + {t}] && s'.alerts == s.alerts + [Alert(e, t, published)]
    ensures AlertsFollow(s', check.executionId)
  {
    var e, call := check.executionId, Call(check.cap, check.total);
    var before := CallsOf(s.checks, e);
    CallsOfOneMore(s.checks, check, e);
    SentOfOneMore(before, call);
    hide ShouldEmit, Sent, Seen, AlertsOf, CallsOf;
    match ShouldEmit(Lookup(s.alerted, e).GetOr({}), call.cap, call.total) {
      case None =>
      case Some(t) =>
        SeenOneMore(Sent(before), t);
        AlertsOfOneMore(s.alerts, Alert(e, t, published));
    }
  }

  lemma SentOfOneMore(calls: seq<Call>, c: Call)
    ensures
      Sent(calls + [c]) ==
      match ShouldEmit(Seen(Sent(calls)), c.cap, c.total)
      case None => Sent(calls)
      case Some(t) => Sent(calls) + [t]
  {
    hide ShouldEmit, Seen;
    assert (calls + [c])[..|calls|] == calls;
  }

  lemma AlertsOfOneMore(alerts: seq<Alert>, a: Alert)
    ensures AlertsOf(alerts + [a], a.executionId) == AlertsOf(alerts, a.executionId) + [a.threshold]
    ensures PublishedOf(alerts + [a], a.executionId)
            == PublishedOf(alerts, a.executionId) + (if a.published then [a.threshold] else [])
  {
    assert (alerts + [a])[..|alerts|] == alerts;
  }

  lemma OtherCheck(s: State, s': State, e: ExecutionId, check: Check)
    requires AlertsFollow(s, e) && e != check.executionId && s'.checks == s.checks + [check]
    requires Lookup(s'.alerted, e) == Lookup(s.alerted, e)
    requires
      || s'.alerts == s.alerts
      || exists t, published :: s'.alerts == s.alerts + [Alert(check.executionId, t, published)]
    ensures AlertsFollow(s', e)
  {
    CallsOfOneMore(s.checks, check, e);
    hide ShouldEmit, Sent, CallsOf, AlertsOf, Seen;
    assert CallsOf(s'.checks, e) == CallsOf(s.checks, e);
    if s'.alerts != s.alerts {
      var t, published :| s'.alerts == s.alerts + [Alert(check.executionId, t, published)];
      AlertsOfOther(s.alerts, Alert(check.executionId, t, published), e);
    }
  }

  lemma AlertsOfOther(alerts: seq<Alert>, a: Alert, e: ExecutionId)
    requires a.executionId != e
    ensures AlertsOf(alerts + [a], e) == AlertsOf(alerts, e)
  {
    assert (alerts + [a])[..|alerts|] == alerts;
  }

  lemma StepKeepsInv(caps: Caps, s: State, event: Event)
    requires Inv(caps, s)
    ensures Inv(caps, Step(caps, s, event))
  {
    hide MessagesOnce, ChargesSound, SpendIsSum, SpendIsCost, AllBilled, TotalsRemembered, AlertsFollowChecks,
      EarlierSound, ShouldEmit;
    match event
    case Enforce(h) =>
      if h < |s.handlers| {
        var s' := EnforceStep(caps, s, h);
        EnforceKeepsMessages(caps, s, h);
        EnforceKeepsSpend(caps, s, h);
        EnforceKeepsSound(caps, s, h);
        EnforceKeepsCost(caps, s, h);
        EnforceKeepsBilled(caps, s, h);
        EnforceRemembers(caps, s, h);
        SameAlerts(s, s');
      }
    case CheckAlert(h, cap, published) =>
      if h < |s.handlers| {
        var s' := AlertStep(s, h, cap, published);
        AlertMoves(s, h, cap, published);
        MovesKeepBilling(s, s');
        AlertKeepsAlerts(s, h, cap, published);
        AlertRemembers(s, h, cap, published);
        SameSpend(s, s');
        SameEarlier(s, s');
      }
    case Receive(m) =>
      ReceiveKeepsMessages(s, m);
      ReceiveKeepsBilling(s, m);
      SameTotals(s, ReceiveStep(s, m));
      SameSpend(s, ReceiveStep(s, m));
      SameAlerts(s, ReceiveStep(s, m));
    case Fail(h) =>
      if h < |s.handlers| {
        MovesKeepBilling(s, FailStep(s, h));
        SameTotals(s, FailStep(s, h));
        SameSpend(s, FailStep(s, h));
        SameAlerts(s, FailStep(s, h));
      }
    case Restart =>
      MovesKeepBilling(s, RestartStep(s));
      SameSpend(s, RestartStep(s));
      RestartKeepsAlerts(s);
      RestartRemembers(s);
  }

  lemma MoreChargesBack(charges: seq<Charge>, c: Charge, checks: seq<Check>)
    requires AllBacked(charges, checks)
    ensures AllBacked(charges + [c], checks)
  {
    forall k | 0 <= k < |checks|
      ensures CheckBacked(charges + [c], checks[k])
    {
      assert CheckBacked(charges, checks[k]);
      var i :| 0 <= i < |charges| && charges[i].messageId == checks[k].messageId
               && charges[i].executionId == checks[k].executionId && charges[i].newTotal == checks[k].total;
      assert (charges + [c])[i] == charges[i];
    }
  }

  lemma EnforceRemembers(caps: Caps, s: State, h: nat)
    requires TotalsRemembered(s) && h < |s.handlers|
    ensures TotalsRemembered(EnforceStep(caps, s, h))
  {
    var s' := EnforceStep(caps, s, h);
    assert Lives(s') == Lives(s);
    forall k | 0 <= k < |s'.handlers|
      ensures HandlerRemembers(s', k)
    {
      assert HandlerRemembers(s, k);
      if s'.charges != s.charges && k == h {
        assert Bills(s'.charges[|s.charges|], s'.handlers[h]);
      } else if s'.handlers[k].phase.Charged? {
        assert s'.handlers[k] == s.handlers[k];
        var i :| 0 <= i < |s.charges| && Bills(s.charges[i], s.handlers[k])
                 && s.charges[i].newTotal == s.handlers[k].phase.newTotal
                 && s.charges[i].capExceeded == s.handlers[k].phase.capExceeded;
        assert Bills(s'.charges[i], s'.handlers[k]);
      }
    }
    if s'.charges != s.charges {
      forall i | 0 <= i < |Lives(s')|
        ensures AllBacked(s'.charges, Lives(s')[i].checks)
      {
        assert Lives(s')[i] == Lives(s)[i];
        MoreChargesBack(s.charges, s'.charges[|s.charges|], Lives(s)[i].checks);
      }
    }
  }

  /** Handlers that stay charged are as they were. */
  ghost predicate ChargedStay(before: seq<Handler>, after: seq<Handler>) {
    forall h :: 0 <= h < |after| && after[h].phase.Charged? ==> h < |before| && before[h] == after[h]
  }

  lemma HandlersRemember(s: State, s': State)
    requires TotalsRemembered(s) && s'.charges == s.charges && ChargedStay(s.handlers, s'.handlers)
    ensures forall h :: 0 <= h < |s'.handlers| ==> HandlerRemembers(s', h)
  {
    forall h | 0 <= h < |s'.handlers|
      ensures HandlerRemembers(s', h)
    {
      if s'.handlers[h].phase.Charged? { assert HandlerRemembers(s, h); }
    }
  }

  lemma SameTotals(s: State, s': State)
    requires TotalsRemembered(s) && s'.charges == s.charges && ChargedStay(s.handlers, s'.handlers)
    requires s'.checks == s.checks && s'.alerts == s.alerts && s'.earlier == s.earlier
    ensures TotalsRemembered(s')
  {
    HandlersRemember(s, s');
    assert Lives(s') == Lives(s);
  }

  lemma AlertRemembers(s: State, h: nat, budgetCap: int, published: bool)
    requires TotalsRemembered(s) && h < |s.handlers|
    ensures TotalsRemembered(AlertStep(s, h, budgetCap, published))
  {
    hide ShouldEmit;
    var s' := AlertStep(s, h, budgetCap, published);
    HandlersRemember(s, s');
    assert Lives(s)[|s.earlier|].checks == s.checks;
    forall i | 0 <= i < |Lives(s')|
      ensures AllBacked(s'.charges, Lives(s')[i].checks)
    {
      if i < |s.earlier| {
        assert Lives(s')[i] == Lives(s)[i];
      } else {
        forall k | 0 <= k < |s'.checks|
          ensures CheckBacked(s.charges, s'.checks[k])
        {
          if k < |s.checks| {
            assert s'.checks[k] == s.checks[k];
          } else {
            assert HandlerRemembers(s, h);
          }
        }
      }
    }
  }

  lemma RestartRemembers(s: State)
    requires TotalsRemembered(s)
    ensures TotalsRemembered(RestartStep(s))
  {
    var s' := RestartStep(s);
    HandlersRemember(s, s');
    forall i | 0 <= i < |Lives(s')|
      ensures AllBacked(s'.charges, Lives(s')[i].checks)
    {
      if i < |Lives(s)| { assert Lives(s')[i] == Lives(s)[i]; }
    }
  }

  lemma AlertMoves(s: State, h: nat, budgetCap: int, published: bool)
    requires h < |s.handlers|
    ensures
      var s' := AlertStep(s, h, budgetCap, published);
      && OnlyMoves(s.handlers, s'.handlers) && s'.processed == s.processed
      && s'.charges == s.charges && s'.spend == s.spend && s'.earlier == s.earlier
  {
  }

  lemma RestartKeepsAlerts(s: State)
    requires AlertsFollowChecks(s) && EarlierSound(s)
    ensures AlertsFollowChecks(RestartStep(s)) && EarlierSound(RestartStep(s))
  {
    var s' := RestartStep(s);
    NothingSent();
    forall e: ExecutionId
      ensures AlertsFollow(s', e) && AlertsOf(s.alerts, e) == Sent(ChecksOf(Life(s.alerts, s.checks), e))
    {
      assert AlertsFollow(s, e);
    }
  }

  lemma SameEarlier(s: State, s': State)
    requires EarlierSound(s) && s'.earlier == s.earlier
    ensures EarlierSound(s')
  {
  }

  lemma SameSpend(s: State, s': State)
    requires s'.spend == s.spend && s'.charges == s.charges && SpendIsSum(s)
    ensures SpendIsSum(s')
  {
  }

  lemma SameAlerts(s: State, s': State)
    requires s'.checks == s.checks && s'.alerts == s.alerts && s'.alerted == s.alerted && s'.earlier == s.earlier
    requires AlertsFollowChecks(s) && EarlierSound(s)
    ensures AlertsFollowChecks(s') && EarlierSound(s')
  {
    forall e: ExecutionId
      ensures AlertsFollow(s', e)
    {
      assert AlertsFollow(s, e);
    }
  }

  lemma {:induction false} RunKeepsInv(caps: Caps, events: seq<Event>)
    ensures Inv(caps, Run(caps, events))
  {
    hide Step, Inv;
    if events == [] {
      InitialInv(caps);
    } else {
      RunKeepsInv(caps, events[..|events| - 1]);
      StepKeepsInv(caps, Run(caps, events[..|events| - 1]), events[|events| - 1]);
    }
  }

  lemma InitialInv(caps: Caps)
    ensures Inv(caps, INITIAL)
  {
  }

  // ----- Main results -------------------------------------------------------

  /**
   * Spend is the sum of the amounts of the chargeable messages whose handler ran,
   * each counted once, however often it was delivered.
   */
  lemma {:induction false} SpendCountsEachMessageOnce(caps: Caps, events: seq<Event>, e: ExecutionId)
    ensures Lookup(Run(caps, events).spend, e).GetOr(0) == SumBy(Run(caps, events).handlers, CostOn(e))
    ensures
      var handlers := Run(caps, events).handlers;
      forall h, k :: 0 <= h < k < |handlers| ==> handlers[h].message.id != handlers[k].message.id
  {
    hide Run, Step, AlertsFollowChecks, ChargesSound, AllBilled, TotalsRemembered, SumBy, SpendIsSum, EarlierSound;
    RunKeepsInv(caps, events);
  }

  /**
   * The runs of the enforcement script are exactly the chargeable messages whose
   * handler ran: one charge for each, with its id, execution and amount.
   */
  lemma ChargesAreTheMessages(caps: Caps, events: seq<Event>)
    ensures
      var s := Run(caps, events);
      && (forall i :: 0 <= i < |s.charges| ==> ChargeBilled(s, i))
      && (forall h :: 0 <= h < |s.handlers| && s.handlers[h].Ran() && Chargeable(s.handlers[h].message) ==>
            HandlerBilled(s, h))
      && (forall i, j :: 0 <= i < j < |s.charges| ==> s.charges[i].messageId != s.charges[j].messageId)
      && (forall e: ExecutionId :: SpentOn(s.charges, e) == SumBy(s.handlers, CostOn(e)))
  {
    hide Run, Step, AlertsFollowChecks, ChargesSound, EarlierSound, TotalsRemembered, ChargeBilled, HandlerBilled;
    hide SumBy, SpentOn;
    RunKeepsInv(caps, events);
    var s := Run(caps, events);
    forall e: ExecutionId
      ensures SpentOn(s.charges, e) == SumBy(s.handlers, CostOn(e))
    {
      assert Lookup(s.spend, e).GetOr(0) == SpentOn(s.charges, e);
    }
  }

  /** The charge that takes its execution from within the cap to above it. */
  ghost predicate Crosses(caps: Caps, charges: seq<Charge>, k: nat)
    requires k < |charges|
  {
    var c := charges[k];
    c.executionId in caps && SpentOn(charges[..k], c.executionId) <= caps[c.executionId] < c.newTotal
  }

  lemma {:induction false} SpentGrows(charges: seq<Charge>, e: ExecutionId, i: nat, j: nat)
    requires i <= j <= |charges|
    ensures SpentOn(charges[..i], e) <= SpentOn(charges[..j], e)
  {
    if i < j {
      SpentGrows(charges, e, i, j - 1);
      assert charges[..j] == charges[..j - 1] + [charges[j - 1]];
      SumByAppend(charges[..j - 1], AmountOn(e), charges[j - 1]);
    }
  }

  lemma SpentStep(charges: seq<Charge>, e: ExecutionId, i: nat)
    requires i < |charges|
    ensures SpentOn(charges[..i + 1], e) == SpentOn(charges[..i], e) + AmountOn(e)(charges[i])
  {
    assert charges[..i + 1] == charges[..i] + [charges[i]];
    SumByAppend(charges[..i], AmountOn(e), charges[i]);
  }

  /** Looking back from a total above the cap, one charge must have crossed it. */
  lemma {:induction false} FindCrossing(caps: Caps, charges: seq<Charge>, e: ExecutionId, j: nat) returns (k: nat)
    requires ChargesSound(caps, charges) && e in caps
    requires j <= |charges| && SpentOn(charges[..j], e) > caps[e]
    ensures k < j && charges[k].executionId == e && Crosses(caps, charges, k)
  {
    hide SumBy;
    if j == 0 {
      assert charges[..0] == [];
      NothingSpent(e);
    }
    SpentStep(charges, e, j - 1);
    if SpentOn(charges[..j - 1], e) > caps[e] {
      k := FindCrossing(caps, charges, e, j - 1);
    } else {
      k := j - 1;
    }
  }

  lemma NothingSpent(e: ExecutionId)
    ensures SpentOn([], e) == 0
  {
  }

  /**
   * The cap is reported exceeded from exactly one charge onward: the one that
   * crosses it, and there the total is at most the cap plus that charge.
   */
  lemma ExceededFromCrossing(caps: Caps, events: seq<Event>, i: nat)
    requires i < |Run(caps, events).charges|
    ensures
      var charges := Run(caps, events).charges;
      charges[i].capExceeded <==>
      exists k :: 0 <= k <= i && charges[k].executionId == charges[i].executionId && Crosses(caps, charges, k)
    ensures
      var charges := Run(caps, events).charges;
      Crosses(caps, charges, i) ==> charges[i].newTotal <= caps[charges[i].executionId] + charges[i].amount
  {
    hide Run, Step, SumBy, MessagesOnce, AlertsFollowChecks, SpendIsSum, SpendIsCost, AllBilled, TotalsRemembered;
    RunKeepsInv(caps, events);
    var charges := Run(caps, events).charges;
    var e := charges[i].executionId;
    SpentStep(charges, e, i);
    if charges[i].capExceeded {
      var k := FindCrossing(caps, charges, e, i + 1);
    }
    if k :| 0 <= k <= i && charges[k].executionId == e && Crosses(caps, charges, k) {
      SpentGrows(charges, e, k + 1, i + 1);
    }
  }

  lemma CrossingIsUnique(caps: Caps, events: seq<Event>, i: nat, j: nat)
    requires i < j < |Run(caps, events).charges|
    requires Run(caps, events).charges[i].executionId == Run(caps, events).charges[j].executionId
    ensures !(Crosses(caps, Run(caps, events).charges, i) && Crosses(caps, Run(caps, events).charges, j))
  {
    hide Run, Step, SumBy, MessagesOnce, AlertsFollowChecks, SpendIsSum, SpendIsCost, AllBilled, TotalsRemembered;
    RunKeepsInv(caps, events);
    var charges := Run(caps, events).charges;
    SpentGrows(charges, charges[i].executionId, i + 1, j);
  }

  lemma LifeIsSound(caps: Caps, events: seq<Event>, e: ExecutionId, i: nat)
    requires i < |Lives(Run(caps, events))|
    ensures
      var life := Lives(Run(caps, events))[i];
      AlertsOf(life.alerts, e) == Sent(ChecksOf(life, e))
  {
    hide Run, Step, SumBy, MessagesOnce, ChargesSound, SpendIsSum, SpendIsCost, AllBilled, TotalsRemembered;
    RunKeepsInv(caps, events);
    assert AlertsFollow(Run(caps, events), e);
  }

  /**
   * In every run, what one process latches for an execution are the first few
   * thresholds, each once; the checks of that process say how many.
   */
  lemma AlertsAreAPrefix(caps: Caps, events: seq<Event>, e: ExecutionId, i: nat)
    requires i < |Lives(Run(caps, events))|
    ensures
      var life := Lives(Run(caps, events))[i];
      var latched := AlertsOf(life.alerts, e);
      && |latched| <= 3 && latched == [0.5, 0.75, 0.9][..|latched|]
      && (forall level :: 0 <= level <= 3 ==> (|latched| >= level <==> Climbs(ChecksOf(life, e), level)))
  {
    hide Run, Climbs, Sent;
    var calls := ChecksOf(Lives(Run(caps, events))[i], e);
    LifeIsSound(caps, events, e, i);
    SentIsPrefix(calls);
    forall level | 0 <= level <= |THRESHOLDS|
      ensures |Sent(calls)| >= level <==> Climbs(calls, level)
    {
      AlertsSentIffClimbed(calls, level);
    }
  }

  /** Event j made this check, of the total remembered for its message. */
  ghost predicate MadeBy(caps: Caps, events: seq<Event>, j: nat, check: Check)
    requires j < |events|
  {
    && events[j].CheckAlert? && events[j].budgetCap == check.cap && check.cap > 0
    && var s := Run(caps, events[..j]);
       && events[j].h < |s.handlers|
       && var m, phase := s.handlers[events[j].h].message, s.handlers[events[j].h].phase;
          && m.id == check.messageId && m.executionId == Some(check.executionId) && m.userId.GetOr("") != ""
          && phase.Charged? && phase.newTotal == check.total
  }

  ghost predicate WasMade(caps: Caps, events: seq<Event>, check: Check) {
    exists j :: 0 <= j < |events| && MadeBy(caps, events, j, check)
  }

  ghost predicate AllMade(caps: Caps, events: seq<Event>, checks: seq<Check>) {
    forall k :: 0 <= k < |checks| ==> WasMade(caps, events, checks[k])
  }

  lemma StillMade(caps: Caps, events: seq<Event>, event: Event, check: Check)
    requires WasMade(caps, events, check)
    ensures WasMade(caps, events + [event], check)
  {
    hide Run;
    var j :| 0 <= j < |events| && MadeBy(caps, events, j, check);
    assert (events + [event])[..j] == events[..j];
    assert MadeBy(caps, events + [event], j, check);
  }

  /** The checks of the processes after one more event. */
  lemma LivesStep(caps: Caps, s: State, event: Event)
    ensures
      var s' := Step(caps, s, event);
      if event.Restart? then Lives(s') == Lives(s) + [Life([], [])]
      else
        && |Lives(s')| == |Lives(s)| && s'.earlier == s.earlier
        && (s'.checks == s.checks
            || (event.CheckAlert? && event.h < |s.handlers| && event.budgetCap > 0
                && var m, phase := s.handlers[event.h].message, s.handlers[event.h].phase;
                   && m.executionId.Some? && m.userId.GetOr("") != "" && phase.Charged?
                   && s'.checks == s.checks + [Check(m.id, m.executionId.value, event.budgetCap, phase.newTotal)]))
  {
    hide ShouldEmit;
  }

  lemma {:induction false} ChecksWereMade(caps: Caps, events: seq<Event>, i: nat)
    requires i < |Lives(Run(caps, events))|
    ensures AllMade(caps, events, Lives(Run(caps, events))[i].checks)
  {
    if events != [] {
      var init, event := events[..|events| - 1], events[|events| - 1];
      assert events == init + [event];
      var s, s' := Run(caps, init), Run(caps, events);
      assert s' == Step(caps, s, event);
      LivesStep(caps, s, event);
      if i < |Lives(s)| { ChecksWereMade(caps, init, i); }
      assert Lives(s)[|s.earlier|].checks == s.checks && Lives(s')[|s'.earlier|].checks == s'.checks;
      hide Run, Step, WasMade;
      var checks := Lives(s')[i].checks;
      forall k | 0 <= k < |checks|
        ensures WasMade(caps, events, checks[k])
      {
        if i < |Lives(s)| && k < |Lives(s)[i].checks| {
          assert checks[k] == Lives(s)[i].checks[k];
          StillMade(caps, init, event, checks[k]);
        } else {
          assert events[..|init|] == init;
          MadeNow(caps, events, |init|, checks[k]);
        }
      }
    }
  }

  lemma MadeNow(caps: Caps, events: seq<Event>, j: nat, check: Check)
    requires j < |events| && MadeBy(caps, events, j, check)
    ensures WasMade(caps, events, check)
  {
    hide Run;
  }

  /**
   * What every check of every process compared: the budget of its event with the
   * spend of the execution at the charge of its message.
   */
  lemma ChecksCompareTheSpend(caps: Caps, events: seq<Event>, i: nat, k: nat)
    requires i < |Lives(Run(caps, events))| && k < |Lives(Run(caps, events))[i].checks|
    ensures
      var check, charges := Lives(Run(caps, events))[i].checks[k], Run(caps, events).charges;
      && WasMade(caps, events, check)
      && exists c :: 0 <= c < |charges| && charges[c].messageId == check.messageId
                     && charges[c].executionId == check.executionId
                     && check.total == SpentOn(charges[..c + 1], check.executionId)
  {
    ChecksWereMade(caps, events, i);
    RunKeepsInv(caps, events);
    var s := Run(caps, events);
    hide Run, WasMade, SpentOn;
    var check := Lives(s)[i].checks[k];
    assert AllBacked(s.charges, Lives(s)[i].checks) && CheckBacked(s.charges, check);
    var c :| 0 <= c < |s.charges| && s.charges[c].messageId == check.messageId
             && s.charges[c].executionId == check.executionId && s.charges[c].newTotal == check.total;
    assert s.charges[c].newTotal == SpentOn(s.charges[..c + 1], s.charges[c].executionId);
  }

  /** A spend has reached the threshold that comes after the first level ones. */
  predicate SpendReaches(level: nat, spent: int, cap: int) {
    match level
    case 0 => 2 * spent >= cap
    case 1 => 4 * spent >= 3 * cap
    case 2 => 10 * spent >= 9 * cap
    case _ => false
  }

  lemma RatioOfSpend(level: nat, spent: int, cap: int)
    requires cap > 0 && level < |THRESHOLDS|
    ensures Reaches(Call(cap, spent), level + 1) <==> SpendReaches(level, spent, cap)
  {
    var ratio := spent as real / cap as real;
    assert ratio * cap as real == spent as real;
    RatioAtLeast(ratio, cap as real, 0.5);
    RatioAtLeast(ratio, cap as real, 0.75);
    RatioAtLeast(ratio, cap as real, 0.9);
  }

  lemma RatioAtLeast(ratio: real, cap: real, t: real)
    requires cap > 0.0
    ensures ratio >= t <==> ratio * cap >= t * cap
  {
    assert (ratio - t) * cap == ratio * cap - t * cap;
    if ratio < t { assert (t - ratio) * cap > 0.0; }
    if ratio >= t { assert (ratio - t) * cap >= 0.0; }
  }

  /**
   * Exactly what the check after a charge does: it latches the next of 0.5, 0.75
   * and 0.9 when the spend at that charge has reached it.
   */
  lemma CheckLatchesNext(caps: Caps, events: seq<Event>, h: nat, budgetCap: int, published: bool, c: nat)
    requires h < |Run(caps, events).handlers| && Run(caps, events).handlers[h].phase.Charged?
    requires Run(caps, events).handlers[h].message.userId.GetOr("") != "" && budgetCap > 0
    requires c < |Run(caps, events).charges|
    requires Run(caps, events).charges[c].messageId == Run(caps, events).handlers[h].message.id
    ensures
      var s := Run(caps, events);
      var s' := Step(caps, s, CheckAlert(h, budgetCap, published));
      var e := s.charges[c].executionId;
      var before := AlertsOf(s.alerts, e);
      AlertsOf(s'.alerts, e) == before
                                + (if SpendReaches(|before|, SpentOn(s.charges[..c + 1], e), budgetCap)
                                   then [[0.5, 0.75, 0.9][|before|]] else [])
  {
    RunKeepsInv(caps, events);
    var s := Run(caps, events);
    hide Run, SpentOn, Sent, ShouldEmit, Reaches, AlertsOf, CallsOf, Seen;
    var e := s.charges[c].executionId;
    assert HandlerRemembers(s, h) && AlertsFollow(s, e);
    var i :| 0 <= i < |s.charges| && Bills(s.charges[i], s.handlers[h])
             && s.charges[i].newTotal == s.handlers[h].phase.newTotal;
    assert i == c;
    var total, before := s.handlers[h].phase.newTotal, AlertsOf(s.alerts, e);
    assert total == SpentOn(s.charges[..c + 1], e);
    SentIsPrefix(CallsOf(s.checks, e));
    EmitFollowsLevel(|before|, budgetCap, total);
    if |before| < |THRESHOLDS| {
      RatioOfSpend(|before|, total, budgetCap);
      AlertsOfOneMore(s.alerts, Alert(e, THRESHOLDS[|before|], published));
    }
  }

  /** So a check after a charge that brings the spend to half of the budget or more leaves 0.5 latched. */
  lemma HalfSpentIsLatched(caps: Caps, events: seq<Event>, h: nat, budgetCap: int, published: bool, c: nat)
    requires h < |Run(caps, events).handlers| && Run(caps, events).handlers[h].phase.Charged?
    requires Run(caps, events).handlers[h].message.userId.GetOr("") != "" && budgetCap > 0
    requires c < |Run(caps, events).charges|
    requires Run(caps, events).charges[c].messageId == Run(caps, events).handlers[h].message.id
    requires
      var charge := Run(caps, events).charges[c];
      2 * SpentOn(Run(caps, events).charges[..c + 1], charge.executionId) >= budgetCap
    ensures
      var s' := Step(caps, Run(caps, events), CheckAlert(h, budgetCap, published));
      0.5 in AlertsOf(s'.alerts, Run(caps, events).charges[c].executionId)
  {
    CheckLatchesNext(caps, events, h, budgetCap, published, c);
    var s := Run(caps, events);
    var e := s.charges[c].executionId;
    LifeIsSound(caps, events, e, |s.earlier|);
    hide Run, Step, SpentOn, Sent, AlertsOf, CallsOf;
    SentIsPrefix(CallsOf(s.checks, e));
    if AlertsOf(s.alerts, e) != [] {
      assert AlertsOf(s.alerts, e)[0] == 0.5;
    }
  }

  predicate Rising(ts: seq<real>) {
    forall i, j :: 0 <= i < j < |ts| ==> ts[i] < ts[j]
  }

  lemma RisingSnoc(ts: seq<real>, t: real)
    requires Rising(ts) && forall x :: x in ts ==> x < t
    ensures Rising(ts + [t])
  {
    forall i | 0 <= i < |ts|
      ensures ts[i] < t
    {
      assert ts[i] in ts;
    }
  }

  lemma {:induction false} PublishedAmongLatched(alerts: seq<Alert>, e: ExecutionId)
    requires Rising(AlertsOf(alerts, e))
    ensures Rising(PublishedOf(alerts, e))
    ensures forall t :: t in PublishedOf(alerts, e) ==> t in AlertsOf(alerts, e)
  {
    if alerts != [] {
      var init, last := alerts[..|alerts| - 1], alerts[|alerts| - 1];
      var before, latched := AlertsOf(init, e), AlertsOf(alerts, e);
      assert forall i :: 0 <= i < |before| ==> latched[i] == before[i];
      PublishedAmongLatched(init, e);
      if last.executionId == e {
        assert latched[|before|] == last.threshold;
        forall t | t in before
          ensures t < last.threshold
        {
          var i :| 0 <= i < |before| && before[i] == t;
          assert latched[i] < latched[|before|];
        }
        RisingSnoc(PublishedOf(init, e), last.threshold);
      }
    }
  }

  /** What one process publishes for an execution rises: each threshold at most once, none of them unlatched. */
  lemma PublishedRise(caps: Caps, events: seq<Event>, e: ExecutionId, i: nat)
    requires i < |Lives(Run(caps, events))|
    ensures
      var alerts := Lives(Run(caps, events))[i].alerts;
      && Rising(PublishedOf(alerts, e))
      && forall t :: t in PublishedOf(alerts, e) ==> t in AlertsOf(alerts, e)
  {
    hide Run, AlertsOf, PublishedOf;
    var alerts := Lives(Run(caps, events))[i].alerts;
    AlertsAreAPrefix(caps, events, e, i);
    assert Rising(THRESHOLDS);
    PublishedAmongLatched(alerts, e);
  }

  // ----- Restarts -----------------------------------------------------------

  /** Two processes latch one threshold for the same execution. */
  ghost predicate LatchedTwice(lives: seq<Life>, e: ExecutionId) {
    exists i, j, t ::
      0 <= i < j < |lives| && t in AlertsOf(lives[i].alerts, e) && t in AlertsOf(lives[j].alerts, e)
  }

  predicate ReachesFirst(life: Life, e: ExecutionId) {
    exists c :: 0 <= c < |ChecksOf(life, e)| && Reaches(ChecksOf(life, e)[c], 1)
  }

  /** In each of two processes some check reaches the first threshold. */
  ghost predicate ReachedTwice(lives: seq<Life>, e: ExecutionId) {
    exists i, j :: 0 <= i < j < |lives| && ReachesFirst(lives[i], e) && ReachesFirst(lives[j], e)
  }

  /** A process latches something exactly when it latches the first threshold, on a check that reaches it. */
  lemma LatchesIffReachesFirst(caps: Caps, events: seq<Event>, e: ExecutionId, i: nat)
    requires i < |Lives(Run(caps, events))|
    ensures
      var life := Lives(Run(caps, events))[i];
      && (AlertsOf(life.alerts, e) != [] <==> THRESHOLDS[0] in AlertsOf(life.alerts, e))
      && (AlertsOf(life.alerts, e) != [] <==> ReachesFirst(life, e))
  {
    hide Run, AlertsOf, Reaches;
    var life := Lives(Run(caps, events))[i];
    AlertsAreAPrefix(caps, events, e, i);
    var calls := ChecksOf(life, e);
    assert |AlertsOf(life.alerts, e)| >= 1 <==> Climbs(calls, 1);
    if c :| 0 <= c < |calls| && Reaches(calls[c], 1) {
      assert Climbs(calls[..c], 0);
    }
  }

  /**
   * The latch does not outlive its process. In every run, an execution has a
   * threshold latched by two processes if and only if, in each of two processes,
   * some check reaches the first threshold.
   */
  lemma LatchedTwiceIffReachedTwice(caps: Caps, events: seq<Event>, e: ExecutionId)
    ensures LatchedTwice(Lives(Run(caps, events)), e) <==> ReachedTwice(Lives(Run(caps, events)), e)
  {
    hide Run, Lives, AlertsOf, ReachesFirst;
    var lives := Lives(Run(caps, events));
    forall i | 0 <= i < |lives|
      ensures AlertsOf(lives[i].alerts, e) != [] <==> THRESHOLDS[0] in AlertsOf(lives[i].alerts, e)
      ensures AlertsOf(lives[i].alerts, e) != [] <==> ReachesFirst(lives[i], e)
    {
      LatchesIffReachesFirst(caps, events, e, i);
    }
    if LatchedTwice(lives, e) {
      var i, j, t :| 0 <= i < j < |lives| && t in AlertsOf(lives[i].alerts, e) && t in AlertsOf(lives[j].alerts, e);
      assert ReachesFirst(lives[i], e) && ReachesFirst(lives[j], e);
    }
    if ReachedTwice(lives, e) {
      var i, j :| 0 <= i < j < |lives| && ReachesFirst(lives[i], e) && ReachesFirst(lives[j], e);
      assert THRESHOLDS[0] in AlertsOf(lives[i].alerts, e) && THRESHOLDS[0] in AlertsOf(lives[j].alerts, e);
    }
  }

  function HalfCharge(id: MessageId, e: ExecutionId): Message {
    Message(id, true, ToolInvoked, Some(e), Some(50), Some("user"))
  }

  /** One message of 50 cents against a budget of 100, with nothing latched yet. */
  function ChargeAndCheck(caps: Caps, s: State, id: MessageId, e: ExecutionId): State {
    var h := |s.handlers|;
    Step(caps, Step(caps, Step(caps, s, Receive(HalfCharge(id, e))), Enforce(h)), CheckAlert(h, 100, true))
  }

  lemma HalfIsAnnounced(caps: Caps, s: State, id: MessageId, e: ExecutionId)
    requires id !in s.processed && Lookup(s.alerted, e).GetOr({}) == {} && Lookup(s.spend, e).GetOr(0) >= 0
    ensures
      var s' := ChargeAndCheck(caps, s, id, e);
      && |s'.handlers| == |s.handlers| + 1 && s'.earlier == s.earlier && s'.processed == s.processed + {id}
      && Lookup(s'.spend, e).GetOr(0) >= 0 && 0.5 in PublishedOf(s'.alerts, e)
  {
    hide PublishedOf;
    var h, m := |s.handlers|, HalfCharge(id, e);
    var s1 := Step(caps, s, Receive(m));
    var s2 := Step(caps, s1, Enforce(h));
    var total := Lookup(s.spend, e).GetOr(0) + 50;
    assert s2.handlers[h].message == m && s2.handlers[h].phase.Charged? && s2.handlers[h].phase.newTotal == total;
    HalfIsDue(total);
    AlertsOfOneMore(s.alerts, Alert(e, 0.5, true));
  }

  lemma HalfIsDue(total: int)
    requires total >= 50
    ensures ShouldEmit({}, 100, total) == Some(0.5)
  {
    assert total as real / 100.0 >= 0.5;
  }

  lemma RunOne(caps: Caps, events: seq<Event>, event: Event)
    ensures Run(caps, events + [event]) == Step(caps, Run(caps, events), event)
  {
    hide Step;
    assert (events + [event])[..|events|] == events;
  }

  lemma RunChargeAndCheck(caps: Caps, events: seq<Event>, id: MessageId, e: ExecutionId, h: nat)
    returns (more: seq<Event>)
    requires h == |Run(caps, events).handlers|
    ensures Run(caps, more) == ChargeAndCheck(caps, Run(caps, events), id, e)
  {
    hide Run, Step;
    var one := events + [Receive(HalfCharge(id, e))];
    var two := one + [Enforce(h)];
    more := two + [CheckAlert(h, 100, true)];
    RunOne(caps, events, Receive(HalfCharge(id, e)));
    RunOne(caps, one, Enforce(h));
    RunOne(caps, two, CheckAlert(h, 100, true));
  }

  /**
   * It does happen: a charge of half the budget, a restart, and another charge.
   * Both processes publish 0.5.
   */
  lemma RestartRepeatsAnAlert(caps: Caps, e: ExecutionId) returns (events: seq<Event>)
    ensures
      var s := Run(caps, events);
      |s.earlier| == 1 && 0.5 in PublishedOf(s.earlier[0].alerts, e) && 0.5 in PublishedOf(s.alerts, e)
  {
    assert Run(caps, []) == INITIAL;
    hide Run, ChargeAndCheck, PublishedOf;
    HalfIsAnnounced(caps, INITIAL, "first", e);
    var before := RunChargeAndCheck(caps, [], "first", e, 0);
    RunOne(caps, before, Restart);
    var restarted := before + [Restart];
    HalfIsAnnounced(caps, Run(caps, restarted), "second", e);
    events := RunChargeAndCheck(caps, restarted, "second", e, 1);
  }

  // ----- Charged or lost --------------------------------------------------------

  ghost predicate Delivered(events: seq<Event>, id: MessageId) {
    exists j :: 0 <= j < |events| && events[j].Receive? && events[j].message.id == id
  }

  lemma DeliveredOneMore(events: seq<Event>, event: Event, id: MessageId)
    ensures Delivered(events + [event], id) <==>
            Delivered(events, id) || (event.Receive? && event.message.id == id)
  {
    var longer := events + [event];
    assert longer[|events|] == event;
    if Delivered(events, id) {
      var j :| 0 <= j < |events| && events[j].Receive? && events[j].message.id == id;
      assert longer[j] == events[j];
    }
  }

  lemma {:induction false} MarkedIffDelivered(caps: Caps, events: seq<Event>, id: MessageId)
    ensures id in Run(caps, events).processed <==> Delivered(events, id)
  {
    if events != [] {
      var init, last := events[..|events| - 1], events[|events| - 1];
      assert events == init + [last];
      MarkedIffDelivered(caps, init, id);
      DeliveredOneMore(init, last, id);
      hide Run, ShouldEmit, Delivered;
    }
  }

  /** The first delivery of an id gets a handler, every later one changes nothing. */
  lemma FirstDeliveryIsHandled(caps: Caps, events: seq<Event>, m: Message)
    ensures
      Run(caps, events + [Receive(m)]).handlers
      == Run(caps, events).handlers + (if Delivered(events, m.id) then [] else [Handler(m, Received)])
    ensures Delivered(events, m.id) ==> Run(caps, events + [Receive(m)]) == Run(caps, events)
  {
    RunOne(caps, events, Receive(m));
    MarkedIffDelivered(caps, events, m.id);
    hide Run, Delivered;
  }

  predicate IsToolCharge(m: Message, e: ExecutionId, amount: nat) {
    && m.isBillingEvent && m.eventType == ToolInvoked && m.executionId == Some(e) && m.amountCents == Some(amount)
    && amount > 0
  }

  lemma ChargeStep(caps: Caps, s: State, h: nat, e: ExecutionId, amount: nat)
    requires h < |s.handlers| && s.handlers[h].phase.Received? && IsToolCharge(s.handlers[h].message, e, amount)
    requires Lookup(s.spend, e).GetOr(0) == SpentOn(s.charges, e)
    ensures
      var s', total := Step(caps, s, Enforce(h)), SpentOn(s.charges, e) + amount;
      && s'.charges == s.charges + [Charge(s.handlers[h].message.id, e, amount, total, e in caps && total > caps[e])]
      && s'.spend == s.spend[e := total]
      && s'.handlers[h].phase == Charged(total, e in caps && total > caps[e])
  {
    hide SpentOn;
  }

  /** In every reachable state a received message is charged in full, on top of the charges so far. */
  lemma ReceivedIsCharged(caps: Caps, events: seq<Event>, h: nat, e: ExecutionId, amount: nat)
    requires h < |Run(caps, events).handlers| && Run(caps, events).handlers[h].phase.Received?
    requires IsToolCharge(Run(caps, events).handlers[h].message, e, amount)
    ensures
      var s, s' := Run(caps, events), Run(caps, events + [Enforce(h)]);
      var total := SpentOn(s.charges, e) + amount;
      && s'.charges == s.charges + [Charge(s.handlers[h].message.id, e, amount, total, e in caps && total > caps[e])]
      && s'.spend == s.spend[e := total]
      && h < |s'.handlers| && s'.handlers[h].phase == Charged(total, e in caps && total > caps[e])
  {
    hide Run, Step, SpentOn, MessagesOnce, AlertsFollowChecks, ChargesSound, AllBilled, TotalsRemembered, EarlierSound;
    RunKeepsInv(caps, events);
    ChargeStep(caps, Run(caps, events), h, e, amount);
    RunOne(caps, events, Enforce(h));
    HandlersStay(caps, Run(caps, events), Enforce(h));
  }

  lemma HandlersStay(caps: Caps, s: State, event: Event)
    ensures |Step(caps, s, event).handlers| >= |s.handlers|
  {
    hide ShouldEmit;
  }

  /** A message that was taken off the subscription, is not charged, and that no handler will charge. */
  ghost predicate Abandoned(s: State, id: MessageId) {
    && id in s.processed
    && (forall h :: 0 <= h < |s.handlers| && s.handlers[h].message.id == id ==> !s.handlers[h].phase.Received?)
    && (forall i :: 0 <= i < |s.charges| ==> s.charges[i].messageId != id)
  }

  lemma AbandonedStep(caps: Caps, s: State, event: Event, id: MessageId)
    requires Abandoned(s, id)
    ensures Abandoned(Step(caps, s, event), id)
  {
    hide ShouldEmit;
  }

  lemma AbandonedNow(caps: Caps, s: State, event: Event, h: nat)
    requires MessagesOnce(s) && h < |s.handlers| && s.handlers[h].phase.Received?
    requires event == Fail(h) || event == Restart
    ensures Abandoned(Step(caps, s, event), s.handlers[h].message.id)
  {
  }

  /**
   * The id is marked before the charge: a message whose handler fails, or whose process ends,
   * before the charge is never charged, however often it is delivered again.
   */
  lemma {:induction false} FailedMessageIsFree(caps: Caps, events: seq<Event>, event: Event, h: nat, more: seq<Event>)
    requires h < |Run(caps, events).handlers| && Run(caps, events).handlers[h].phase.Received?
    requires event == Fail(h) || event == Restart
    ensures Abandoned(Run(caps, events + [event] + more), Run(caps, events).handlers[h].message.id)
  {
    if more == [] {
      assert events + [event] + more == events + [event];
      RunKeepsInv(caps, events);
      RunOne(caps, events, event);
      AbandonedNow(caps, Run(caps, events), event, h);
      hide Run, Step, Abandoned;
    } else {
      var n := |more| - 1;
      assert events + [event] + more == (events + [event] + more[..n]) + [more[n]];
      FailedMessageIsFree(caps, events, event, h, more[..n]);
      RunOne(caps, events + [event] + more[..n], more[n]);
      hide Run, Step, Abandoned;
      AbandonedStep(caps, Run(caps, events + [event] + more[..n]), more[n], Run(caps, events).handlers[h].message.id);
    }
  }

  /** No handler outlives its process: none charges or checks after the end of it. */
  lemma NoHandlerOutlivesProcess(caps: Caps, events: seq<Event>, h: nat)
    requires h < |Run(caps, events).handlers|
    ensures |Run(caps, events + [Restart]).handlers| == |Run(caps, events).handlers|
    ensures
      var before, after := Run(caps, events).handlers[h], Run(caps, events + [Restart]).handlers[h];
      && after.message == before.message
      && after.phase == (if before.phase.Received? || before.phase.Failed? then Failed else Finished)
  {
    RunOne(caps, events, Restart);
    hide Run;
  }

  // ----- Token cost ---------------------------------------------------------

  /** Cents per million tokens. */
  datatype Rates = Rates(input: real, output: real)

  const DEFAULT_RATES := Rates(15.0, 60.0)

  datatype Usage = Usage(promptTokens: nat, completionTokens: nat)

  function ExactCost(r: Rates, u: Usage): real {
    (u.promptTokens as real * r.input + u.completionTokens as real * r.output) / 1_000_000.0
  }

  /** Math.round: the nearest integer, halves upward. */
  function Round(x: real): int {
    (x + 0.5).Floor
  }

  function TokenCost(r: Rates, u: Usage): int {
    Round(ExactCost(r, u))
  }

  function TotalCost(r: Rates, us: seq<Usage>): int {
    if us == [] then 0 else TotalCost(r, us[..|us| - 1]) + TokenCost(r, us[|us| - 1])
  }

  function TotalExact(r: Rates, us: seq<Usage>): real {
    if us == [] then 0.0 else TotalExact(r, us[..|us| - 1]) + ExactCost(r, us[|us| - 1])
  }

  /** Rounding each of n calls moves the bill by at most n/2 cents. */
  lemma {:induction false} RoundingDrift(r: Rates, us: seq<Usage>)
    ensures
      var drift := (TotalCost(r, us) as real) - TotalExact(r, us);
      var n := |us| as real;
      -n / 2.0 <= drift <= n / 2.0
  {
    if us != [] {
      RoundingDrift(r, us[..|us| - 1]);
    }
  }

  /** The default rates: a million prompt tokens cost 15 cents, a million completion tokens 60. */
  lemma DefaultCost(m: nat, n: nat)
    ensures TokenCost(DEFAULT_RATES, Usage(1_000_000 * m, 1_000_000 * n)) == 15 * m + 60 * n
  {
    assert ExactCost(DEFAULT_RATES, Usage(1_000_000 * m, 1_000_000 * n)) == (15 * m + 60 * n) as real;
  }

  /** With the default rates the drift does reach n/2 cents: 1.5 cents are billed as 2. */
  lemma {:induction false} DriftIsReached(us: seq<Usage>)
    requires forall i :: 0 <= i < |us| ==> us[i] == Usage(100_000, 0)
    ensures (TotalCost(DEFAULT_RATES, us) as real) - TotalExact(DEFAULT_RATES, us) == |us| as real / 2.0
  {
    if us != [] {
      DriftIsReached(us[..|us| - 1]);
      assert ExactCost(DEFAULT_RATES, Usage(100_000, 0)) == 1.5;
      assert Round(1.5) == 2;
    }
  }

  // ----- The engine, updating shared state in place --------------------------

  class BillingEngine {
    const caps: Caps
    var processed: set<MessageId>
    var handlers: seq<Handler>
    var spend: map<ExecutionId, int>
    ghost var charges: seq<Charge>
    var alertedThresholds: map<ExecutionId, set<real>>
    var alerts: seq<Alert>
    ghost var checks: seq<Check>
    ghost var earlier: seq<Life>

    ghost function Abs(): State
      reads this
    {
      State(processed, handlers, spend, charges, alertedThresholds, alerts, checks, earlier)
    }

    constructor (caps: Caps)
      ensures Abs() == INITIAL && this.caps == caps
    {
      this.caps := caps;
      processed, handlers, spend, charges := {}, [], map[], [];
      alertedThresholds, alerts, checks, earlier := map[], [], [], [];
    }

    method SetPhase(h: nat, phase: Phase)
      requires h < |handlers|
      modifies this`handlers
      ensures handlers == old(handlers)[h := old(handlers)[h].(phase := phase)]
    {
      handlers := handlers[h := handlers[h].(phase := phase)];
    }

    method Receive(m: Message) returns (isNew: bool)
      modifies this
      ensures Abs() == ReceiveStep(old(Abs()), m)
      ensures isNew == (m.id !in old(processed))
    {
      isNew := m.id !in processed;
      if isNew {
        processed := processed + {m.id};
        handlers := handlers + [Handler(m, Received)];
      }
    }

    method EnforceAtomicBudget(e: ExecutionId, amount: nat) returns (newTotal: int, capExceeded: bool)
      modifies this`spend
      ensures (spend, newTotal, capExceeded) == EnforceScript(caps, old(spend), e, amount)
    {
      newTotal := (if e in spend then spend[e] else 0) + amount;
      spend := spend[e := newTotal];
      capExceeded := e in caps && newTotal > caps[e];
    }

    method Enforce(h: nat)
      requires h < |handlers|
      modifies this
      ensures Abs() == EnforceStep(caps, old(Abs()), h)
    {
      var m := handlers[h].message;
      if handlers[h].phase.Received? {
        if Chargeable(m) {
          var newTotal, exceeded := EnforceAtomicBudget(m.executionId.value, m.amountCents.value);
          charges := charges + [Charge(m.id, m.executionId.value, m.amountCents.value, newTotal, exceeded)];
          SetPhase(h, Charged(newTotal, exceeded));
        } else {
          SetPhase(h, Finished);
        }
      }
    }

    /** Latches and returns the lowest threshold that is due. */
    method ShouldEmitAlert(e: ExecutionId, cap: int, total: int) returns (threshold: Option<real>)
      modifies this`alertedThresholds
      ensures
        var alerted := Lookup(old(alertedThresholds), e).GetOr({});
        && threshold == ShouldEmit(alerted, cap, total)
        && alertedThresholds == (if threshold.None? then old(alertedThresholds)
                                 else old(alertedThresholds)[e := alerted + {threshold.value}])
    {
      if cap == 0 {
        return None;
      }
      var ratio := (total as real) / (cap as real);
      var alerted := if e in alertedThresholds then alertedThresholds[e] else {};
      for i := 0 to |THRESHOLDS|
        invariant alertedThresholds == old(alertedThresholds)
        invariant forall k :: 0 <= k < i ==> ratio < THRESHOLDS[k] || THRESHOLDS[k] in alerted
      {
        var t := THRESHOLDS[i];
        if ratio >= t && t !in alerted {
          alertedThresholds := alertedThresholds[e := alerted + {t}];
          return Some(t);
        }
      }
      threshold := None;
    }

    method EmitBudgetAlertIfNeeded(h: nat, budgetCap: int, published: bool)
      requires h < |handlers|
      modifies this
      ensures Abs() == AlertStep(old(Abs()), h, budgetCap, published)
    {
      var m, phase := handlers[h].message, handlers[h].phase;
      if phase.Charged? && m.executionId.Some? {
        var e := m.executionId.value;
        SetPhase(h, Finished);
        if m.userId.GetOr("") != "" && budgetCap > 0 {
          checks := checks + [Check(m.id, e, budgetCap, phase.newTotal)];
          var threshold := ShouldEmitAlert(e, budgetCap, phase.newTotal);
          if threshold.Some? {
            alerts := alerts + [Alert(e, threshold.value, published)];
          }
        }
      }
    }

    /** Every event, on the shared state. */
    method Perform(event: Event)
      modifies this
      ensures Abs() == Step(caps, old(Abs()), event)
    {
      hide ReceiveStep, EnforceStep, AlertStep;
      match event
      case Receive(m) => var isNew := Receive(m);
      case Enforce(h) => if h < |handlers| { Enforce(h); }
      case CheckAlert(h, cap, published) => if h < |handlers| { EmitBudgetAlertIfNeeded(h, cap, published); }
      case Fail(h) => if h < |handlers| { SetPhase(h, FailPhase(handlers[h].phase)); }
      case Restart =>
        handlers := FailAll(handlers);
        earlier := earlier + [Life(alerts, checks)];
        alertedThresholds, alerts, checks := map[], [], [];
    }
  }
}
