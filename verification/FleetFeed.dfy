/**
 * The fleet event feed: each selected source is queried for its newest rows
 * only, the results are merged, sorted and cut. The feed shows the same times
 * as if every row had been merged.
 */
module FleetFeed {
  import opened Prelude

  datatype Kind = VerdictConfirmed | ClassTransition | DnaCaptured | PioneerDetected

  datatype Event = Event(id: string, kind: Kind, timestamp: int)

  datatype VerdictRow = VerdictRow(id: string, confirmed: bool, createdAt: int)

  datatype ClassRow = ClassRow(id: string, lastTransitionAt: Option<int>, isPioneer: bool, updatedAt: int)

  datatype DnaRow = DnaRow(id: string, capturedAt: int)

  /** The tables as the query of each source found them: the queries are separate statements. */
  type Views = Kind -> Tables

  datatype Tables = Tables(verdicts: seq<VerdictRow>, classes: seq<ClassRow>, dna: seq<DnaRow>)

  const DEFAULT_LIMIT := 50
  const MAX_LIMIT := 100

  // ----- Sources ------------------------------------------------------------

  /** The event a row gives rise to, if the query of the source selects it. */
  function VerdictEvent(r: VerdictRow): Option<Event> {
    if r.confirmed then Some(Event(r.id, VerdictConfirmed, r.createdAt)) else None
  }

  function TransitionEvent(r: ClassRow): Option<Event> {
    match r.lastTransitionAt
    case None => None
    case Some(at) => Some(Event(r.id, ClassTransition, at))
  }

  function DnaEvent(r: DnaRow): Option<Event> {
    Some(Event(r.id, DnaCaptured, r.capturedAt))
  }

  function PioneerEvent(r: ClassRow): Option<Event> {
    if r.isPioneer then Some(Event(r.id, PioneerDetected, r.updatedAt)) else None
  }

  function Select<R>(rows: seq<R>, f: R -> Option<Event>): seq<Event> {
    if rows == [] then []
    else
      Select(rows[..|rows| - 1], f)
      + (match f(rows[|rows| - 1]) case None => [] case Some(e) => [e])
  }

  function SourceEvents(views: Views, kind: Kind): seq<Event> {
    var t := views(kind);
    match kind
    case VerdictConfirmed => Select(t.verdicts, VerdictEvent)
    case ClassTransition => Select(t.classes, TransitionEvent)
    case DnaCaptured => Select(t.dna, DnaEvent)
    case PioneerDetected => Select(t.classes, PioneerEvent)
  }

  const KINDS := [VerdictConfirmed, ClassTransition, DnaCaptured, PioneerDetected]

  /** The selected sources, in the order the handler visits them. */
  function Sources(views: Views, types: set<Kind>, kinds: seq<Kind>): seq<seq<Event>> {
    if kinds == [] then []
    else
      Sources(views, types, kinds[..|kinds| - 1])
      + (if kinds[|kinds| - 1] in types then [SourceEvents(views, kinds[|kinds| - 1])] else [])
  }

  function Flatten(lists: seq<seq<Event>>): seq<Event> {
    if lists == [] then [] else Flatten(lists[..|lists| - 1]) + lists[|lists| - 1]
  }

  /**
   * How many rows of its table stand for an event: a confirmed verdict at its creation,
   * a class row with a transition at that time, a DNA row at its capture, a pioneer at
   * its last update.
   */
  function RowsOf(views: Views, e: Event): int {
    match e.kind
    case VerdictConfirmed =>
      SumBy(views(VerdictConfirmed).verdicts,
            (r: VerdictRow) => if r.confirmed && r.id == e.id && r.createdAt == e.timestamp then 1 else 0)
    case ClassTransition =>
      SumBy(views(ClassTransition).classes,
            (r: ClassRow) => if r.id == e.id && r.lastTransitionAt == Some(e.timestamp) then 1 else 0)
    case DnaCaptured =>
      SumBy(views(DnaCaptured).dna, (r: DnaRow) => if r.id == e.id && r.capturedAt == e.timestamp then 1 else 0)
    case PioneerDetected =>
      SumBy(views(PioneerDetected).classes,
            (r: ClassRow) => if r.isPioneer && r.id == e.id && r.updatedAt == e.timestamp then 1 else 0)
  }

  lemma {:induction false} SelectCounts<R>(rows: seq<R>, f: R -> Option<Event>, e: Event, g: R -> int)
    requires forall i :: 0 <= i < |rows| ==> g(rows[i]) == if f(rows[i]) == Some(e) then 1 else 0
    ensures multiset(Select(rows, f))[e] == SumBy(rows, g)
  {
    if rows != [] {
      SelectCounts(rows[..|rows| - 1], f, e, g);
    }
  }

  lemma {:induction false} SelectMisses<R>(rows: seq<R>, f: R -> Option<Event>, e: Event)
    requires forall i :: 0 <= i < |rows| ==> f(rows[i]) != Some(e)
    ensures multiset(Select(rows, f))[e] == 0
  {
    if rows != [] {
      SelectMisses(rows[..|rows| - 1], f, e);
    }
  }

  /** A source has each event of its kind once per row, and no event of another kind. */
  lemma SourceCounts(views: Views, kind: Kind, e: Event)
    ensures multiset(SourceEvents(views, kind))[e] == if e.kind == kind then RowsOf(views, e) else 0
  {
    hide SumBy, Select;
    match kind
    case VerdictConfirmed =>
      var rows := views(kind).verdicts;
      if e.kind == kind {
        SelectCounts(rows, VerdictEvent, e,
                     (r: VerdictRow) => if r.confirmed && r.id == e.id && r.createdAt == e.timestamp then 1 else 0);
      } else {
        SelectMisses(rows, VerdictEvent, e);
      }
    case ClassTransition =>
      var rows := views(kind).classes;
      if e.kind == kind {
        SelectCounts(rows, TransitionEvent, e,
                     (r: ClassRow) => if r.id == e.id && r.lastTransitionAt == Some(e.timestamp) then 1 else 0);
      } else {
        SelectMisses(rows, TransitionEvent, e);
      }
    case DnaCaptured =>
      var rows := views(kind).dna;
      if e.kind == kind {
        SelectCounts(rows, DnaEvent, e,
                     (r: DnaRow) => if r.id == e.id && r.capturedAt == e.timestamp then 1 else 0);
      } else {
        SelectMisses(rows, DnaEvent, e);
      }
    case PioneerDetected =>
      var rows := views(kind).classes;
      if e.kind == kind {
        SelectCounts(rows, PioneerEvent, e,
                     (r: ClassRow) => if r.isPioneer && r.id == e.id && r.updatedAt == e.timestamp then 1 else 0);
      } else {
        SelectMisses(rows, PioneerEvent, e);
      }
  }

  /** All the rows there are: the sources together have each event of a selected type once per row. */
  lemma UnionCounts(views: Views, types: set<Kind>, e: Event)
    ensures multiset(Flatten(Sources(views, types, KINDS)))[e] == if e.kind in types then RowsOf(views, e) else 0
  {
    hide SourceEvents, RowsOf, Flatten, Sources;
    NothingQueried(views, types, 0);
    assert KINDS[..4] == KINDS;
    OneMoreSource(views, types, 0, e);
    OneMoreSource(views, types, 1, e);
    OneMoreSource(views, types, 2, e);
    OneMoreSource(views, types, 3, e);
  }

  lemma OneMoreSource(views: Views, types: set<Kind>, i: nat, e: Event)
    requires i < |KINDS|
    ensures multiset(Flatten(Sources(views, types, KINDS[..i + 1])))[e]
            == multiset(Flatten(Sources(views, types, KINDS[..i])))[e]
               + (if e.kind == KINDS[i] && e.kind in types then RowsOf(views, e) else 0)
  {
    hide SourceEvents, RowsOf, Flatten, Sources;
    SourcesStep(views, types, i);
    SourceCounts(views, KINDS[i], e);
    FlattenSnoc(Sources(views, types, KINDS[..i]), SourceEvents(views, KINDS[i]));
  }

  // ----- Order ----------------------------------------------------------------

  predicate NewestFirst(s: seq<Event>) {
    forall i, j :: 0 <= i < j < |s| ==> s[i].timestamp >= s[j].timestamp
  }

  function Take(s: seq<Event>, k: nat): seq<Event> {
    if |s| <= k then s else s[..k]
  }

  function Times(s: seq<Event>): (times: seq<int>)
    ensures |times| == |s| && forall i :: 0 <= i < |s| ==> times[i] == s[i].timestamp
  {
    seq(|s|, i requires 0 <= i < |s| => s[i].timestamp)
  }

  lemma OlderGoesLast(init: seq<Event>, z: Event, e: Event, r: seq<Event>)
    requires NewestFirst(init + [z]) && NewestFirst(r)
    requires multiset(r) == multiset(init) + multiset{e} && e.timestamp >= z.timestamp
    ensures NewestFirst(r + [z])
  {
    forall i | 0 <= i < |r|
      ensures r[i].timestamp >= z.timestamp
    {
      assert r[i] in multiset(r);
      if r[i] != e {
        assert r[i] in multiset(init);
        var j :| 0 <= j < |init| && init[j] == r[i];
        assert (init + [z])[j] == r[i] && (init + [z])[|init|] == z;
      }
    }
  }

  /** Stable insertion: after every event that is at least as new. */
  function Insert(e: Event, s: seq<Event>): (r: seq<Event>)
    requires NewestFirst(s)
    ensures NewestFirst(r) && multiset(r) == multiset(s) + multiset{e}
  {
    if s == [] then [e]
    else if s[|s| - 1].timestamp >= e.timestamp then s + [e]
    else
      var init, z := s[..|s| - 1], s[|s| - 1];
      assert s == init + [z];
      var r := Insert(e, init);
      OlderGoesLast(init, z, e, r);
      r + [z]
  }

  function SortNewestFirst(s: seq<Event>): (r: seq<Event>)
    ensures NewestFirst(r) && multiset(r) == multiset(s)
  {
    if s == [] then []
    else
      assert s == s[..|s| - 1] + [s[|s| - 1]];
      Insert(s[|s| - 1], SortNewestFirst(s[..|s| - 1]))
  }

  /** An answer to ORDER BY timestamp DESC LIMIT k; the order of ties is the database's choice. */
  ghost predicate IsNewest(q: seq<Event>, all: seq<Event>, k: nat) {
    exists p :: NewestFirst(p) && multiset(p) == multiset(all) && q == Take(p, k)
  }

  // ----- Counting -------------------------------------------------------------

  function SinceWeight(t: int): Event -> int {
    (e: Event) => if e.timestamp >= t then 1 else 0
  }

  /** How many events are at time t or newer. */
  function CountSince(s: seq<Event>, t: int): int {
    SumBy(s, SinceWeight(t))
  }

  lemma {:induction false} CountBounds(s: seq<Event>, t: int)
    ensures 0 <= CountSince(s, t) <= |s|
    ensures (forall i :: 0 <= i < |s| ==> s[i].timestamp >= t) ==> CountSince(s, t) == |s|
  {
    if s != [] {
      CountBounds(s[..|s| - 1], t);
    }
  }

  /** In a sorted list the events since t are the first ones. */
  lemma {:induction false} SortedCount(s: seq<Event>, t: int, j: nat)
    requires NewestFirst(s) && j < |s|
    ensures s[j].timestamp >= t <==> j < CountSince(s, t)
  {
    var n := |s| - 1;
    CountBounds(s[..n], t);
    if s[n].timestamp >= t {
      CountBounds(s, t);
    } else if j < n {
      SortedCount(s[..n], t, j);
    }
  }

  lemma CountOfTake(s: seq<Event>, k: nat, t: int)
    requires NewestFirst(s)
    ensures CountSince(Take(s, k), t) == Min(k, CountSince(s, t))
  {
    var q := Take(s, k);
    var c, d := CountSince(q, t), CountSince(s, t);
    CountBounds(q, t);
    CountBounds(s, t);
    if c < |q| {
      SortedCount(q, t, c);
      SortedCount(s, t, c);
    }
    if c > 0 {
      SortedCount(q, t, c - 1);
      SortedCount(s, t, c - 1);
    }
  }

  lemma CountOfNewest(q: seq<Event>, all: seq<Event>, k: nat, t: int)
    requires IsNewest(q, all, k)
    ensures CountSince(q, t) == Min(k, CountSince(all, t))
  {
    var p :| NewestFirst(p) && multiset(p) == multiset(all) && q == Take(p, k);
    SumByPermutation(p, all, SinceWeight(t));
    CountOfTake(p, k, t);
  }

  ghost predicate AllNewest(queried: seq<seq<Event>>, sources: seq<seq<Event>>, k: nat) {
    |queried| == |sources| && forall i :: 0 <= i < |sources| ==> IsNewest(queried[i], sources[i], k)
  }

  /** Cutting each source first does not change the counts, up to k. */
  lemma {:induction false} CountOfMerge(queried: seq<seq<Event>>, sources: seq<seq<Event>>, k: nat, t: int)
    requires AllNewest(queried, sources, k)
    ensures Min(k, CountSince(Flatten(queried), t)) == Min(k, CountSince(Flatten(sources), t))
    ensures 0 <= CountSince(Flatten(queried), t) <= CountSince(Flatten(sources), t)
  {
    hide IsNewest, SumBy;
    if sources == [] {
    } else {
      var n := |sources| - 1;
      CountOfMerge(queried[..n], sources[..n], k, t);
      CountOfNewest(queried[n], sources[n], k, t);
      CountBounds(sources[n], t);
      SumByConcat(Flatten(queried[..n]), queried[n], SinceWeight(t));
      SumByConcat(Flatten(sources[..n]), sources[n], SinceWeight(t));
    }
    CountBounds(Flatten(queried), t);
  }

  lemma {:induction false} SomeTimeBefore(s: seq<Event>) returns (t: int)
    ensures forall i :: 0 <= i < |s| ==> s[i].timestamp >= t
  {
    if s == [] {
      t := 0;
    } else {
      t := SomeTimeBefore(s[..|s| - 1]);
      if s[|s| - 1].timestamp < t {
        t := s[|s| - 1].timestamp;
      }
    }
  }

  /** Sorted lists with the same counts, up to k, show the same first k times. */
  lemma SameCountsSameTimes(a: seq<Event>, b: seq<Event>, k: nat)
    requires NewestFirst(a) && NewestFirst(b)
    requires forall t :: Min(k, CountSince(a, t)) == Min(k, CountSince(b, t))
    ensures Times(Take(a, k)) == Times(Take(b, k))
  {
    hide CountSince;
    var t := SomeTimeBefore(a + b);
    assert forall i :: 0 <= i < |a| ==> a[i] == (a + b)[i];
    assert forall i :: 0 <= i < |b| ==> b[i] == (a + b)[|a| + i];
    CountBounds(a, t);
    CountBounds(b, t);
    assert Min(k, CountSince(a, t)) == Min(k, CountSince(b, t));
    assert |Take(a, k)| == |Take(b, k)|;
    forall j | 0 <= j < |Take(a, k)|
      ensures a[j].timestamp == b[j].timestamp
    {
      var x, y := a[j].timestamp, b[j].timestamp;
      assert Min(k, CountSince(a, x)) == Min(k, CountSince(b, x));
      assert Min(k, CountSince(a, y)) == Min(k, CountSince(b, y));
      SortedCount(a, x, j);
      SortedCount(b, x, j);
      SortedCount(a, y, j);
      SortedCount(b, y, j);
    }
  }

  // ----- Main result ------------------------------------------------------------

  /**
   * Whatever the database does with ties, cutting each source to its newest k
   * rows, merging, sorting and cutting to k shows the same times as sorting all
   * the rows of all sources and cutting to k.
   */
  lemma {:induction false} FeedRefinesUnion(
    queried: seq<seq<Event>>, sources: seq<seq<Event>>, k: nat, merged: seq<Event>, union: seq<Event>)
    requires AllNewest(queried, sources, k)
    requires NewestFirst(merged) && multiset(merged) == multiset(Flatten(queried))
    requires NewestFirst(union) && multiset(union) == multiset(Flatten(sources))
    ensures Times(Take(merged, k)) == Times(Take(union, k))
  {
    hide AllNewest, SumBy;
    forall t
      ensures Min(k, CountSince(merged, t)) == Min(k, CountSince(union, t))
    {
      SumByPermutation(merged, Flatten(queried), SinceWeight(t));
      SumByPermutation(union, Flatten(sources), SinceWeight(t));
      CountOfMerge(queried, sources, k, t);
    }
    SameCountsSameTimes(merged, union, k);
  }

  /** The queried events are genuine: none appears more often than in the sources. */
  lemma {:induction false} QueriedEventsAreGenuine(queried: seq<seq<Event>>, sources: seq<seq<Event>>, k: nat)
    requires AllNewest(queried, sources, k)
    ensures multiset(Flatten(queried)) <= multiset(Flatten(sources))
  {
    hide IsNewest;
    if sources != [] {
      var n := |sources| - 1;
      QueriedEventsAreGenuine(queried[..n], sources[..n], k);
      NewestArePart(queried[n], sources[n], k);
    }
  }

  lemma NewestArePart(q: seq<Event>, all: seq<Event>, k: nat)
    requires IsNewest(q, all, k)
    ensures multiset(q) <= multiset(all)
  {
    var p :| NewestFirst(p) && multiset(p) == multiset(all) && q == Take(p, k);
    TakeIsPart(p, k);
  }

  lemma TakeIsPart(s: seq<Event>, k: nat)
    ensures multiset(Take(s, k)) <= multiset(s)
  {
    if k < |s| {
      assert s == s[..k] + s[k..];
    }
  }

  // ----- The handler --------------------------------------------------------------

  /** The limit parameter as parseInt reads it. */
  datatype Requested = Absent | NotANumber | Number(n: int)

  /** None for NaN. */
  function EffectiveLimit(requested: Requested): Option<int> {
    match requested
    case Absent => Some(Min(DEFAULT_LIMIT, MAX_LIMIT))
    case NotANumber => None
    case Number(n) => Some(Min(n, MAX_LIMIT))
  }

  /** slice(0, limit) on n events: a negative limit counts from the end, NaN is zero. */
  function SliceEnd(limit: Option<int>, n: nat): nat {
    match limit
    case None => 0
    case Some(k) => if k >= 0 then k else if n + k > 0 then n + k else 0
  }

  /**
   * The cap of 100 on the feed holds exactly for the limits that are not negative:
   * a negative one lets through all but a few of however many events there are.
   */
  lemma FeedIsCappedIffNotNegative(requested: Requested)
    ensures (forall n: nat :: Min(SliceEnd(EffectiveLimit(requested), n), n) <= 100)
            <==> !(requested.Number? && requested.n < 0)
  {
    if requested.Number? && requested.n < 0 {
      var n := MAX_LIMIT + 1 - requested.n;
      assert Min(SliceEnd(EffectiveLimit(requested), n), n) == MAX_LIMIT + 1;
    }
  }

  /** How much of n events each limit parameter shows. */
  lemma LengthByLimit(requested: Requested, n: nat)
    ensures
      Min(SliceEnd(EffectiveLimit(requested), n), n) ==
      match requested
      case Absent => Min(50, n)
      case NotANumber => 0
      case Number(k) => if k >= 100 then Min(100, n) else if k >= 0 then Min(k, n) else if n + k > 0 then n + k else 0
  {
  }

  /** How many rows of a source the query asks for: only a limit from zero on becomes a LIMIT. */
  function QueryBound(limit: Option<int>, all: seq<Event>): nat {
    if limit.Some? && limit.value >= 0 then limit.value else |all|
  }

  /** One query. Callers only know that the answer is the newest k, in some order of ties. */
  method Query(all: seq<Event>, k: nat) returns (q: seq<Event>)
    ensures IsNewest(q, all, k)
  {
    var sorted := SortNewestFirst(all);
    q := Take(sorted, k);
    assert NewestFirst(sorted) && multiset(sorted) == multiset(all) && q == Take(sorted, k);
  }

  /**
   * The answer has the times of the newest rows of all sources: as many as a
   * limit from zero on says; all but the oldest -limit for a negative one. Only
   * a limit that is not negative keeps it to 100.
   */
  method FleetEvents(views: Views, types: set<Kind>, requested: Requested) returns (events: seq<Event>)
    ensures
      var all := SortNewestFirst(Flatten(Sources(views, types, KINDS)));
      && Times(events) == Times(Take(all, |events|)) && NewestFirst(events)
      && match requested
         case Absent => |events| == Min(50, |all|)
         case NotANumber => events == []
         case Number(n) =>
           |events| == if n >= 100 then Min(100, |all|) else if n >= 0 then Min(n, |all|)
                       else if |all| + n > 0 then |all| + n else 0
    ensures forall e :: multiset(events)[e] <= if e.kind in types then RowsOf(views, e) else 0
  {
    hide SourceEvents, IsNewest, Sources, Flatten, AllNewest, SortNewestFirst, QueryBound, SliceEnd, EffectiveLimit;
    var limit := EffectiveLimit(requested);
    events := [];
    ghost var queried: seq<seq<Event>> := [];
    ghost var all := Sources(views, types, KINDS);
    ghost var k := QueryBound(limit, Flatten(all));
    var i := 0;
    NothingQueried(views, types, k);
    while i < |KINDS|
      invariant 0 <= i <= |KINDS|
      invariant AllNewest(queried, Sources(views, types, KINDS[..i]), k)
      invariant events == Flatten(queried)
    {
      SourcesStep(views, types, i);
      if KINDS[i] in types {
        var source := SourceEvents(views, KINDS[i]);
        var rows := Query(source, QueryBound(limit, source));
        SourceFits(views, types, KINDS, i);
        BoundsAgree(limit, source, Flatten(all), rows);
        OneMoreQuery(queried, Sources(views, types, KINDS[..i]), rows, source, k);
        queried := queried + [rows];
        events := events + rows;
      }
      i := i + 1;
    }
    assert KINDS[..i] == KINDS;
    var sorted := SortNewestFirst(events);
    FeedIsGenuine(queried, all, k, sorted, SliceEnd(limit, |sorted|));
    FeedRefinesUnion(queried, all, k, sorted, SortNewestFirst(Flatten(all)));
    QueriedIsNoLonger(queried, all, k);
    SameSize(sorted, Flatten(queried));
    SameSize(SortNewestFirst(Flatten(all)), Flatten(all));
    SlicesAgree(limit, sorted, SortNewestFirst(Flatten(all)), Flatten(all), k);
    events := Take(sorted, SliceEnd(limit, |sorted|));
    LengthByLimit(requested, |Flatten(all)|);
    TimesOfTake(sorted, SliceEnd(limit, |sorted|));
    TimesOfTake(SortNewestFirst(Flatten(all)), SliceEnd(limit, |SortNewestFirst(Flatten(all))|));
    TakeLength(SortNewestFirst(Flatten(all)), SliceEnd(limit, |SortNewestFirst(Flatten(all))|));
    forall e
      ensures multiset(events)[e] <= if e.kind in types then RowsOf(views, e) else 0
    {
      UnionCounts(views, types, e);
    }
  }

  lemma TakeLength(s: seq<Event>, n: nat)
    ensures Take(s, Min(n, |s|)) == Take(s, n)
  {
  }

  lemma FlattenSnoc(lists: seq<seq<Event>>, last: seq<Event>)
    ensures Flatten(lists + [last]) == Flatten(lists) + last
  {
    assert (lists + [last])[..|lists|] == lists;
  }

  lemma {:induction false} QueriedIsNoLonger(queried: seq<seq<Event>>, sources: seq<seq<Event>>, k: nat)
    requires AllNewest(queried, sources, k)
    ensures |Flatten(queried)| <= |Flatten(sources)|
  {
    if sources != [] {
      var n := |sources| - 1;
      QueriedIsNoLonger(queried[..n], sources[..n], k);
      assert IsNewest(queried[n], sources[n], k);
      var p :| NewestFirst(p) && multiset(p) == multiset(sources[n]) && queried[n] == Take(p, k);
      assert |p| == |multiset(p)| == |sources[n]|;
    }
  }

  lemma {:induction false} SourceFits(views: Views, types: set<Kind>, kinds: seq<Kind>, i: nat)
    requires i < |kinds| && kinds[i] in types
    ensures |SourceEvents(views, kinds[i])| <= |Flatten(Sources(views, types, kinds))|
  {
    hide SourceEvents, Flatten;
    var init, last := kinds[..|kinds| - 1], kinds[|kinds| - 1];
    if last in types {
      FlattenSnoc(Sources(views, types, init), SourceEvents(views, last));
    } else {
      assert Sources(views, types, kinds) == Sources(views, types, init);
    }
    if i < |kinds| - 1 {
      SourceFits(views, types, init, i);
    }
  }

  /** Asking one source for all its rows is asking it for as many as there are rows in all. */
  lemma BoundsAgree(limit: Option<int>, source: seq<Event>, union: seq<Event>, rows: seq<Event>)
    requires |source| <= |union| && IsNewest(rows, source, QueryBound(limit, source))
    ensures IsNewest(rows, source, QueryBound(limit, union))
  {
    var p :| NewestFirst(p) && multiset(p) == multiset(source) && rows == Take(p, QueryBound(limit, source));
    assert |p| == |multiset(p)| == |source|;
    assert rows == Take(p, QueryBound(limit, union));
  }

  lemma SameSize(a: seq<Event>, b: seq<Event>)
    requires multiset(a) == multiset(b)
    ensures |a| == |b|
  {
    assert |a| == |multiset(a)| == |multiset(b)| == |b|;
  }

  lemma TimesOfTake(a: seq<Event>, n: nat)
    ensures |Times(Take(a, n))| == Min(n, |a|)
    ensures forall i :: 0 <= i < Min(n, |a|) ==> Times(Take(a, n))[i] == a[i].timestamp
  {
  }

  lemma SlicesAgree(limit: Option<int>, a: seq<Event>, b: seq<Event>, union: seq<Event>, k: nat)
    requires k == QueryBound(limit, union) && multiset(b) == multiset(union)
    requires Times(Take(a, k)) == Times(Take(b, k)) && |a| <= |b|
    ensures Times(Take(a, SliceEnd(limit, |a|))) == Times(Take(b, SliceEnd(limit, |b|)))
  {
    assert |b| == |multiset(b)| == |union|;
    TimesOfTake(a, k);
    TimesOfTake(b, k);
    TimesOfTake(a, SliceEnd(limit, |a|));
    TimesOfTake(b, SliceEnd(limit, |b|));
  }

  lemma NothingQueried(views: Views, types: set<Kind>, k: nat)
    ensures Sources(views, types, KINDS[..0]) == [] && Flatten([]) == []
    ensures AllNewest([], Sources(views, types, KINDS[..0]), k)
  {
  }

  lemma SourcesStep(views: Views, types: set<Kind>, i: nat)
    requires i < |KINDS|
    ensures Sources(views, types, KINDS[..i + 1])
            == if KINDS[i] in types then Sources(views, types, KINDS[..i]) + [SourceEvents(views, KINDS[i])]
               else Sources(views, types, KINDS[..i])
  {
    hide SourceEvents;
    assert KINDS[..i + 1][..i] == KINDS[..i];
  }

  lemma OneMoreQuery(queried: seq<seq<Event>>, sources: seq<seq<Event>>, rows: seq<Event>, all: seq<Event>, k: nat)
    requires AllNewest(queried, sources, k) && IsNewest(rows, all, k)
    ensures AllNewest(queried + [rows], sources + [all], k)
    ensures Flatten(queried + [rows]) == Flatten(queried) + rows
  {
    hide IsNewest;
    assert (queried + [rows])[..|queried|] == queried;
  }

  lemma FeedIsGenuine(queried: seq<seq<Event>>, sources: seq<seq<Event>>, k: nat, sorted: seq<Event>, n: nat)
    requires AllNewest(queried, sources, k)
    requires NewestFirst(sorted) && multiset(sorted) == multiset(Flatten(queried))
    ensures NewestFirst(Take(sorted, n)) && multiset(Take(sorted, n)) <= multiset(Flatten(sources))
  {
    hide AllNewest, Flatten;
    QueriedEventsAreGenuine(queried, sources, k);
    TakeIsPart(sorted, n);
  }
}
