/**
  The bounded asynchronous log queue (source/logger/logger.cpp) as interleaved atomic steps: what
  happens under the mutex is one step, the sink call of the worker and the direct write of a
  caller whose push failed are steps of their own.
 */
module AsyncLogQueue {
  import opened Text

  /** Trace 0, Debug 1, Info 2, Warn 3, Error 4, Critical 5. */
  type Level = n: nat | n <= 5

  datatype Record = Record(level: Level, text: string)

  predicate IsProtected(level: Level) { level == 4 || level == 5 }

  /** The fields guarded by the mutex. */
  datatype Queue = Queue(
    items: seq<Record>, stopping: bool, finished: bool,
    dropped: nat, pushedSeq: nat, writtenSeq: nat)

  const EMPTY_QUEUE := Queue([], false, false, 0, 0, 0)

  // ---------- pushing ----------

  datatype PushResult = Queued | Evicted(victim: Record) | Dropped | Refused

  /** A record that must make room for this one. */
  predicate Yields(queued: Record, r: Record) { !IsProtected(queued.level) && queued.level < r.level }

  function FirstYielding(items: seq<Record>, r: Record, k: nat := 0): (i: nat)
    requires k <= |items|
    ensures k <= i <= |items|
    ensures i < |items| ==> Yields(items[i], r)
    ensures forall j | k <= j < i :: !Yields(items[j], r)
    decreases |items| - k
  {
    if k == |items| || Yields(items[k], r) then k else FirstYielding(items, r, k + 1)
  }

  function Push(q: Queue, capacity: nat, r: Record): (Queue, PushResult) {
    if q.stopping then (q, Refused)
    else if |q.items| < capacity then (q.(items := q.items + [r], pushedSeq := q.pushedSeq + 1), Queued)
    else if IsProtected(r.level) then
      var k := FirstYielding(q.items, r);
      if k < |q.items|
      then (q.(items := q.items[k := r], dropped := q.dropped + 1, pushedSeq := q.pushedSeq + 1), Evicted(q.items[k]))
      else (q, Refused)
    else (q.(dropped := q.dropped + 1), Dropped)
  }

  class SharedQueue {
    const capacity: nat
    var items: seq<Record>
    var stopping: bool
    var finished: bool
    var dropped: nat
    var pushedSeq: nat
    var writtenSeq: nat

    ghost function State(): Queue reads this { Queue(items, stopping, finished, dropped, pushedSeq, writtenSeq) }

    constructor (capacity: nat)
      ensures this.capacity == capacity && State() == EMPTY_QUEUE
    {
      this.capacity := capacity;
      items, stopping, finished, dropped, pushedSeq, writtenSeq := [], false, false, 0, 0, 0;
    }

    /** Under the mutex: enqueue, or replace the oldest lower record, or drop, or refuse. */
    method PushRecord(r: Record) returns (accepted: bool)
      modifies this
      ensures State() == Push(old(State()), capacity, r).0
      ensures accepted <==> Push(old(State()), capacity, r).1 != Refused
    {
      if stopping { return false; }
      if |items| < capacity {
        items := items + [r];
        pushedSeq := pushedSeq + 1;
        return true;
      }
      if IsProtected(r.level) {
        var i := 0;
        while i < |items|
          invariant 0 <= i <= |items| && State() == old(State())
          invariant FirstYielding(items, r, i) == FirstYielding(items, r)
        {
          if !IsProtected(items[i].level) && items[i].level < r.level {
            items := items[i := r];
            dropped := dropped + 1;
            pushedSeq := pushedSeq + 1;
            return true;
          }
          i := i + 1;
        }
        return false;
      }
      dropped := dropped + 1;
      return true;
    }

    /** The worker's wait under the mutex is over: it takes the oldest record, or ends when stopped and drained. */
    method TakeNext() returns (r: Option<Record>)
      requires stopping || items != []
      modifies this`items
      ensures old(items) != [] ==> r == Some(old(items)[0]) && items == old(items)[1..]
      ensures old(items) == [] ==> r == None && items == []
    {
      if items == [] { return None; }
      r := Some(items[0]);
      items := items[1..];
    }
  }

  // ---------- the whole system ----------

  /**
    The queue, the record in the worker's hands (and whether the sink has it already), the records
    whose callers are about to write them directly, what the sink received, and the history:
    what was offered, what was enqueued, what was lost by eviction or dropped on
    arrival, and for each record in the worker's line its place among the enqueued ones.
   */
  datatype System = System(
    q: Queue,
    inFlight: Option<Record>, sunk: bool,
    direct: seq<Record>,
    workerLog: seq<Record>, directLog: seq<Record>,
    offered: seq<Record>, enqueued: seq<Record>, lost: seq<Record>, evictions: nat, drops: nat,
    places: seq<nat>)

  const START := System(EMPTY_QUEUE, None, false, [], [], [], [], [], [], 0, 0, [])

  datatype Action = Offer(record: Record) | WriteDirectly(index: nat) | Take | CallSink | Acknowledge | Stop | Finish

  /** The entry that many from the end replaced. */
  function Replaced(places: seq<nat>, fromEnd: nat, place: nat): seq<nat> {
    if 0 < fromEnd <= |places| then places[|places| - fromEnd := place] else places
  }

  /** A write that passed the level filter; a refused record is left to the caller. */
  function OfferStep(s: System, capacity: nat, r: Record): System {
    var (q, result) := Push(s.q, capacity, r);
    var s1 := s.(q := q, offered := s.offered + [r]);
    match result
    case Queued => s1.(enqueued := s.enqueued + [r], places := s.places + [|s.enqueued|])
    case Evicted(victim) =>
      s1.(enqueued := s.enqueued + [r], lost := s.lost + [victim], evictions := s.evictions + 1,
          places := Replaced(s.places, |s.q.items| - FirstYielding(s.q.items, r), |s.enqueued|))
    case Dropped => s1.(lost := s.lost + [r], drops := s.drops + 1)
    case Refused => s1.(direct := s.direct + [r])
  }

  function Step(s: System, capacity: nat, a: Action): System {
    match a
    case Offer(r) => OfferStep(s, capacity, r)
    case WriteDirectly(i) =>
      if i < |s.direct| then s.(direct := s.direct[..i] + s.direct[i + 1..], directLog := s.directLog + [s.direct[i]]) else s
    case Take =>
      if s.inFlight.None? && s.q.items != [] && !s.q.finished
      then s.(inFlight := Some(s.q.items[0]), sunk := false, q := s.q.(items := s.q.items[1..])) else s
    case CallSink =>
      if s.inFlight.Some? && !s.sunk then s.(sunk := true, workerLog := s.workerLog + [s.inFlight.value]) else s
    case Acknowledge =>
      if s.inFlight.Some? && s.sunk then s.(inFlight := None, sunk := false, q := s.q.(writtenSeq := s.q.writtenSeq + 1)) else s
    case Stop => s.(q := s.q.(stopping := true))
    case Finish =>
      if s.inFlight.None? && s.q.items == [] && s.q.stopping then s.(q := s.q.(finished := true)) else s
  }

  function Run(capacity: nat, actions: seq<Action>): System {
    if actions == [] then START
    else Step(Run(capacity, actions[..|actions| - 1]), capacity, actions[|actions| - 1])
  }

  /** The record the worker holds and has not yet given to the sink. */
  function Pending(s: System): seq<Record> {
    if s.inFlight.Some? && !s.sunk then [s.inFlight.value] else []
  }

  function Held(s: System): nat { if s.inFlight.Some? then 1 else 0 }

  /** Sequence numbers, drop counter and capacity. */
  ghost predicate NumbersBalance(s: System, capacity: nat) {
    && |s.q.items| <= capacity
    && s.q.pushedSeq == s.q.writtenSeq + Held(s) + |s.q.items| + s.evictions
    && s.q.dropped == |s.lost| == s.evictions + s.drops
    && |s.workerLog| == s.q.writtenSeq + (if s.inFlight.Some? && s.sunk then 1 else 0)
  }

  /** How often a record occurs. */
  function Occurrences(rs: seq<Record>, r: Record): nat {
    if rs == [] then 0 else Occurrences(rs[..|rs| - 1], r) + if rs[|rs| - 1] == r then 1 else 0
  }

  /** Every offered record is in exactly one place as often as it was offered. */
  ghost predicate ConservedAt(s: System, r: Record) {
    Occurrences(s.offered, r)
    == Occurrences(s.workerLog, r) + Occurrences(Pending(s), r) + Occurrences(s.q.items, r)
       + Occurrences(s.direct, r) + Occurrences(s.directLog, r) + Occurrences(s.lost, r)
  }

  ghost predicate Conserved(s: System) { forall r :: ConservedAt(s, r) }

  /** No error and no critical record is among the lost. */
  ghost predicate OnlyLowLost(s: System) { forall i | 0 <= i < |s.lost| :: s.lost[i].level < 4 }

  /** The worker's line: what it wrote, what it holds and what is queued. */
  function Line(s: System): seq<Record> { s.workerLog + Pending(s) + s.q.items }

  /** As long as nothing was evicted, the line is what was enqueued, in that order. */
  ghost predicate InOrder(s: System) { s.evictions == 0 ==> s.enqueued == Line(s) }

  ghost predicate Inv(s: System, capacity: nat) {
    && NumbersBalance(s, capacity) && Conserved(s) && OnlyLowLost(s) && InOrder(s)
    && (s.q.finished ==> s.q.stopping && s.q.items == [] && s.inFlight.None?)
    && (s.inFlight.None? ==> !s.sunk)
  }

  lemma {:induction false} OccursAppend(rs: seq<Record>, x: Record, r: Record)
    ensures Occurrences(rs + [x], r) == Occurrences(rs, r) + if x == r then 1 else 0
  {
    assert (rs + [x])[..|rs|] == rs;
  }

  lemma {:induction false} OccursConcat(a: seq<Record>, b: seq<Record>, r: Record)
    ensures Occurrences(a + b, r) == Occurrences(a, r) + Occurrences(b, r)
    decreases |b|
  {
    if b == [] {
      assert a + b == a;
    } else {
      OccursConcat(a, b[..|b| - 1], r);
      assert (a + b)[..|a + b| - 1] == a + b[..|b| - 1];
    }
  }

  lemma {:induction false} OccursOne(x: Record, r: Record)
    ensures Occurrences([x], r) == if x == r then 1 else 0
  {
    assert [x][..0] == [];
  }

  /** A sequence around one of its elements. */
  lemma {:induction false} OccursCut(rs: seq<Record>, k: nat, r: Record)
    requires k < |rs|
    ensures Occurrences(rs, r) == Occurrences(rs[..k] + rs[k + 1..], r) + if rs[k] == r then 1 else 0
  {
    assert rs == rs[..k] + ([rs[k]] + rs[k + 1..]);
    OccursConcat(rs[..k], [rs[k]] + rs[k + 1..], r);
    OccursConcat([rs[k]], rs[k + 1..], r);
    OccursConcat(rs[..k], rs[k + 1..], r);
    OccursOne(rs[k], r);
  }

  lemma {:induction false} OccursReplaced(rs: seq<Record>, k: nat, x: Record, r: Record)
    requires k < |rs|
    ensures Occurrences(rs[k := x], r) + (if rs[k] == r then 1 else 0) == Occurrences(rs, r) + if x == r then 1 else 0
  {
    OccursCut(rs, k, r);
    OccursCut(rs[k := x], k, r);
    assert rs[k := x][..k] == rs[..k] && rs[k := x][k + 1..] == rs[k + 1..];
  }

  lemma {:induction false} EvictionConservesAt(s: System, capacity: nat, x: Record, r: Record)
    requires ConservedAt(s, r) && Push(s.q, capacity, x).1.Evicted?
    ensures ConservedAt(OfferStep(s, capacity, x), r)
  {
    var k := FirstYielding(s.q.items, x);
    OccursAppend(s.offered, x, r);
    OccursReplaced(s.q.items, k, x, r);
    OccursAppend(s.lost, s.q.items[k], r);
  }

  lemma {:induction false} QueuedConservesAt(s: System, capacity: nat, x: Record, r: Record)
    requires ConservedAt(s, r) && Push(s.q, capacity, x).1 == Queued
    ensures ConservedAt(OfferStep(s, capacity, x), r)
  {
    OccursAppend(s.offered, x, r);
    OccursAppend(s.q.items, x, r);
  }

  lemma {:induction false} DropConservesAt(s: System, capacity: nat, x: Record, r: Record)
    requires ConservedAt(s, r) && Push(s.q, capacity, x).1 == Dropped
    ensures ConservedAt(OfferStep(s, capacity, x), r)
  {
    OccursAppend(s.offered, x, r);
    OccursAppend(s.lost, x, r);
  }

  lemma {:induction false} RefusalConservesAt(s: System, capacity: nat, x: Record, r: Record)
    requires ConservedAt(s, r) && Push(s.q, capacity, x).1 == Refused
    ensures ConservedAt(OfferStep(s, capacity, x), r)
  {
    OccursAppend(s.offered, x, r);
    OccursAppend(s.direct, x, r);
  }

  lemma {:induction false} OfferConservesAt(s: System, capacity: nat, x: Record, r: Record)
    requires ConservedAt(s, r)
    ensures ConservedAt(OfferStep(s, capacity, x), r)
  {
    match Push(s.q, capacity, x).1
    case Queued => QueuedConservesAt(s, capacity, x, r);
    case Evicted(_) => EvictionConservesAt(s, capacity, x, r);
    case Dropped => DropConservesAt(s, capacity, x, r);
    case Refused => RefusalConservesAt(s, capacity, x, r);
  }

  lemma {:induction false} OfferKeepsNumbers(s: System, capacity: nat, r: Record)
    requires NumbersBalance(s, capacity) && OnlyLowLost(s)
    ensures NumbersBalance(OfferStep(s, capacity, r), capacity) && OnlyLowLost(OfferStep(s, capacity, r))
  {
    OfferLosesOnlyLow(s, capacity, r);
  }

  lemma {:induction false} OfferLosesOnlyLow(s: System, capacity: nat, r: Record)
    requires OnlyLowLost(s)
    ensures OnlyLowLost(OfferStep(s, capacity, r))
  {
  }

  lemma {:induction false} OfferKeepsOrder(s: System, capacity: nat, r: Record)
    requires InOrder(s)
    ensures InOrder(OfferStep(s, capacity, r))
  {
    Associate(s.workerLog + Pending(s), s.q.items, [r]);
  }

  lemma {:induction false} OfferKeepsInv(s: System, capacity: nat, x: Record)
    requires Inv(s, capacity)
    ensures Inv(OfferStep(s, capacity, x), capacity)
  {
    forall r ensures ConservedAt(OfferStep(s, capacity, x), r) { OfferConservesAt(s, capacity, x, r); }
    OfferKeepsNumbers(s, capacity, x);
    OfferKeepsOrder(s, capacity, x);
  }

  lemma {:induction false} TakeConservesAt(s: System, capacity: nat, r: Record)
    requires ConservedAt(s, r) && s.inFlight.None? && !s.sunk && s.q.items != [] && !s.q.finished
    ensures ConservedAt(Step(s, capacity, Take), r)
  {
    OccursFirst(s.q.items, r);
  }

  lemma {:induction false} OccursFirst(rs: seq<Record>, r: Record)
    requires rs != []
    ensures Occurrences(rs, r) == Occurrences([rs[0]], r) + Occurrences(rs[1..], r)
  {
    assert rs == [rs[0]] + rs[1..];
    OccursConcat([rs[0]], rs[1..], r);
  }

  lemma {:induction false} TakeKeepsOrder(s: System, capacity: nat)
    requires InOrder(s) && s.inFlight.None? && !s.sunk && s.q.items != [] && !s.q.finished
    ensures InOrder(Step(s, capacity, Take))
  {
    var first, rest := s.q.items[0], s.q.items[1..];
    assert s.q.items == [first] + rest && s.workerLog + [] == s.workerLog;
    Associate(s.workerLog, [first], rest);
  }

  lemma {:induction false} TakeKeepsInv(s: System, capacity: nat)
    requires Inv(s, capacity) && s.inFlight.None? && s.q.items != [] && !s.q.finished
    ensures Inv(Step(s, capacity, Take), capacity)
  {
    forall r ensures ConservedAt(Step(s, capacity, Take), r) { TakeConservesAt(s, capacity, r); }
    TakeKeepsOrder(s, capacity);
  }

  lemma {:induction false} SinkKeepsInv(s: System, capacity: nat)
    requires Inv(s, capacity) && s.inFlight.Some? && !s.sunk
    ensures Inv(Step(s, capacity, CallSink), capacity)
  {
    var u := Step(s, capacity, CallSink);
    forall r ensures ConservedAt(u, r) {
      assert ConservedAt(s, r);
      OccursAppend(s.workerLog, s.inFlight.value, r);
      OccursOne(s.inFlight.value, r);
    }
    assert u.workerLog + [] == u.workerLog;
  }

  lemma {:induction false} DirectWriteKeepsInv(s: System, capacity: nat, i: nat)
    requires Inv(s, capacity) && i < |s.direct|
    ensures Inv(Step(s, capacity, WriteDirectly(i)), capacity)
  {
    var u := Step(s, capacity, WriteDirectly(i));
    forall r ensures ConservedAt(u, r) {
      assert ConservedAt(s, r);
      OccursCut(s.direct, i, r);
      OccursAppend(s.directLog, s.direct[i], r);
    }
  }

  /** The other steps move no record. */
  lemma {:induction false} QuietStepKeepsInv(s: System, capacity: nat, a: Action)
    requires Inv(s, capacity) && (a.Acknowledge? || a.Stop? || a.Finish?)
    ensures Inv(Step(s, capacity, a), capacity)
  {
    var u := Step(s, capacity, a);
    forall r ensures ConservedAt(u, r) { assert ConservedAt(s, r); }
  }

  lemma {:induction false} StepKeepsInv(s: System, capacity: nat, a: Action)
    requires Inv(s, capacity)
    ensures Inv(Step(s, capacity, a), capacity)
  {
    match a
    case Offer(r) => OfferKeepsInv(s, capacity, r);
    case WriteDirectly(i) => if i < |s.direct| { DirectWriteKeepsInv(s, capacity, i); }
    case Take => if s.inFlight.None? && s.q.items != [] && !s.q.finished { TakeKeepsInv(s, capacity); }
    case CallSink => if s.inFlight.Some? && !s.sunk { SinkKeepsInv(s, capacity); }
    case _ => QuietStepKeepsInv(s, capacity, a);
  }

  lemma {:induction false} RunKeepsInv(capacity: nat, actions: seq<Action>)
    ensures Inv(Run(capacity, actions), capacity)
  {
    if actions != [] {
      RunKeepsInv(capacity, actions[..|actions| - 1]);
      StepKeepsInv(Run(capacity, actions[..|actions| - 1]), capacity, actions[|actions| - 1]);
    }
  }

  // ---------- what the interleavings cannot break ----------

  /** Nothing is waiting anywhere. */
  predicate Settled(s: System) { s.q.items == [] && s.inFlight.None? && s.direct == [] }

  /** In every interleaving the sequence numbers and the drop counter balance, and the queue never exceeds its capacity. */
  lemma {:induction false} CountersBalance(capacity: nat, actions: seq<Action>)
    ensures var s := Run(capacity, actions);
            && |s.q.items| <= capacity
            && s.q.pushedSeq == s.q.writtenSeq + Held(s) + |s.q.items| + s.evictions
            && s.q.dropped == s.evictions + s.drops
  {
    RunKeepsInv(capacity, actions);
  }

  /** In every interleaving what is lost, by eviction or on arrival, is below the level of an error. */
  lemma {:induction false} LostIsBelowError(capacity: nat, actions: seq<Action>, r: Record)
    requires r in Run(capacity, actions).lost
    ensures r.level < 4
  {
    RunKeepsInv(capacity, actions);
  }

  /**
    A push by its outcome. It is refused exactly when the queue is stopping, or full of errors and critical records and this
    is one; it is dropped exactly when the queue is full and this is neither; a full queue gives an error or critical
    record the place of its oldest record of a lower level than error; otherwise the record is appended.
   */
  lemma {:induction false} PushOutcome(q: Queue, capacity: nat, r: Record)
    ensures var (u, result) := Push(q, capacity, r);
            && (result == Refused <==> q.stopping || (|q.items| >= capacity && r.level >= 4 && forall x | x in q.items :: x.level >= 4))
            && (result == Dropped <==> !q.stopping && |q.items| >= capacity && r.level < 4)
            && (result == Queued <==> !q.stopping && |q.items| < capacity)
            && (result == Refused ==> u == q)
            && (result == Dropped ==> u == q.(dropped := q.dropped + 1))
            && (result == Queued ==> u == q.(items := q.items + [r], pushedSeq := q.pushedSeq + 1))
            && (result.Evicted? ==> exists k | 0 <= k < |q.items| ::
                  && q.items[k].level < 4 && (forall j | 0 <= j < k :: q.items[j].level >= 4) && result.victim == q.items[k]
                  && u == q.(items := q.items[k := r], dropped := q.dropped + 1, pushedSeq := q.pushedSeq + 1))
  {
    if !q.stopping && |q.items| >= capacity && r.level >= 4 {
      var k := FirstYielding(q.items, r);
      assert forall i | 0 <= i < |q.items| :: Yields(q.items[i], r) <==> q.items[i].level < 4;
      assert k == |q.items| ==> forall x | x in q.items :: x.level >= 4;
      assert k < |q.items| ==> q.items[k] in q.items;
    }
  }

  /** Once nothing is waiting, every error or critical record that was offered has reached the sink, each as
      often as it was offered; whatever is missing was of a lower level and is counted as dropped. */
  lemma {:induction false} ProtectedRecordsReachTheSinkOnce(capacity: nat, actions: seq<Action>, r: Record)
    requires Settled(Run(capacity, actions))
    ensures var s := Run(capacity, actions);
            && Occurrences(s.workerLog, r) + Occurrences(s.directLog, r) + Occurrences(s.lost, r) == Occurrences(s.offered, r)
            && (r.level >= 4 ==> Occurrences(s.workerLog, r) + Occurrences(s.directLog, r) == Occurrences(s.offered, r))
            && s.q.dropped == |s.lost|
  {
    RunKeepsInv(capacity, actions);
    var s := Run(capacity, actions);
    assert ConservedAt(s, r);
    if r.level >= 4 { NotLost(s.lost, r); }
  }

  lemma {:induction false} NotLost(lost: seq<Record>, r: Record)
    requires r.level >= 4 && forall i | 0 <= i < |lost| :: lost[i].level < 4
    ensures Occurrences(lost, r) == 0
  {
    if lost != [] { NotLost(lost[..|lost| - 1], r); }
  }

  /** A worker that has ended left nothing behind in the queue. */
  lemma {:induction false} FinishedMeansDrained(capacity: nat, actions: seq<Action>)
    requires Run(capacity, actions).q.finished
    ensures var s := Run(capacity, actions); s.q.items == [] && s.inFlight.None? && s.q.stopping
  {
    RunKeepsInv(capacity, actions);
  }

  /** Without evictions the sink sees the records in the order they were enqueued. */
  lemma {:induction false} FifoWithoutEvictions(capacity: nat, actions: seq<Action>)
    requires Run(capacity, actions).evictions == 0
    ensures Run(capacity, actions).workerLog <= Run(capacity, actions).enqueued
  {
    RunKeepsInv(capacity, actions);
    var s := Run(capacity, actions);
    Associate(s.workerLog, Pending(s), s.q.items);
  }

  /** The condition on which a flush waits, for the number it read when it was called. */
  predicate FlushReturns(s: System, target: nat) { s.q.writtenSeq >= target || s.q.finished }

  predicate Drained(s: System) { s.q.items == [] && s.inFlight.None? }

  /** In every state, drained or not, a flush with some target is over exactly when the records still on their
      way and the evictions leave room for it: each eviction keeps the written number one behind for good. */
  lemma {:induction false} FlushReturnsIff(capacity: nat, actions: seq<Action>, target: nat)
    ensures var s := Run(capacity, actions);
            FlushReturns(s, target) <==> target + Held(s) + |s.q.items| + s.evictions <= s.q.pushedSeq || s.q.finished
  {
    RunKeepsInv(capacity, actions);
  }

  /** A flush that begins on a drained queue returns exactly when nothing was ever evicted or the worker has ended. */
  lemma {:induction false} FlushReturnsIffNothingEvicted(capacity: nat, actions: seq<Action>)
    requires Drained(Run(capacity, actions))
    ensures var s := Run(capacity, actions);
            FlushReturns(s, s.q.pushedSeq) <==> s.evictions == 0 || s.q.finished
  {
    FlushReturnsIff(capacity, actions, Run(capacity, actions).q.pushedSeq);
  }

  /** A full queue of one warning and then an error: drained, and a flush still waits. */
  lemma {:induction false} EvictionBlocksFlush()
    ensures var s := Run(1, [Offer(Record(3, "w")), Offer(Record(4, "e")), Take, CallSink, Acknowledge]);
            Drained(s) && !FlushReturns(s, s.q.pushedSeq)
  {
    var a := [Offer(Record(3, "w")), Offer(Record(4, "e")), Take, CallSink, Acknowledge];
    assert a[..4] == [Offer(Record(3, "w")), Offer(Record(4, "e")), Take, CallSink];
    assert a[..4][..3] == [Offer(Record(3, "w")), Offer(Record(4, "e")), Take];
    assert a[..4][..3][..2] == [Offer(Record(3, "w")), Offer(Record(4, "e"))];
    assert a[..4][..3][..2][..1] == [Offer(Record(3, "w"))];
    assert a[..4][..3][..2][..1][..0] == [];
    var s1 := Step(START, 1, a[0]);
    assert Run(1, a[..4][..3][..2][..1]) == s1;
    var s2 := Step(s1, 1, a[1]);
    assert Run(1, a[..4][..3][..2]) == s2;
    assert FirstYielding(s1.q.items, Record(4, "e")) == 0;
    var s3 := Step(s2, 1, Take);
    assert Run(1, a[..4][..3]) == s3;
    var s4 := Step(s3, 1, CallSink);
    assert Run(1, a[..4]) == s4;
  }

  // ---------- the order of the line ----------

  /** Every record of the line is the enqueued one at its place, and no place occurs twice. */
  ghost predicate Placed(s: System) {
    && |s.places| == |Line(s)|
    && (forall i | 0 <= i < |s.places| :: s.places[i] < |s.enqueued| && s.enqueued[s.places[i]] == Line(s)[i])
    && (forall i, j | 0 <= i < j < |s.places| :: s.places[i] != s.places[j])
  }

  lemma {:induction false} QueuedKeepsPlaced(s: System, u: System, r: Record)
    requires Placed(s) && Line(u) == Line(s) + [r] && u.enqueued == s.enqueued + [r] && u.places == s.places + [|s.enqueued|]
    ensures Placed(u)
  {
  }

  lemma {:induction false} ReplacedKeepsPlaced(s: System, u: System, r: Record, at: nat)
    requires Placed(s) && at < |Line(s)| && Line(u) == Line(s)[at := r]
    requires u.enqueued == s.enqueued + [r] && u.places == s.places[at := |s.enqueued|]
    ensures Placed(u)
  {
  }

  lemma {:induction false} ReplaceInLine(log: seq<Record>, held: seq<Record>, items: seq<Record>, k: nat, r: Record)
    requires k < |items|
    ensures log + held + items[k := r] == (log + held + items)[|log + held| + k := r]
  {
  }

  lemma {:induction false} OfferKeepsPlaced(s: System, capacity: nat, r: Record)
    requires Placed(s)
    ensures Placed(OfferStep(s, capacity, r))
  {
    var u := OfferStep(s, capacity, r);
    match Push(s.q, capacity, r).1
    case Queued =>
      Associate(s.workerLog + Pending(s), s.q.items, [r]);
      QueuedKeepsPlaced(s, u, r);
    case Evicted(victim) =>
      var k := FirstYielding(s.q.items, r);
      ReplaceInLine(s.workerLog, Pending(s), s.q.items, k, r);
      ReplacedKeepsPlaced(s, u, r, |s.workerLog + Pending(s)| + k);
    case Dropped =>
    case Refused =>
  }

  /** The worker moves along the line without changing it. */
  lemma {:induction false} WorkerKeepsLine(s: System, capacity: nat, a: Action)
    requires !a.Offer? && (s.inFlight.None? ==> !s.sunk)
    ensures Line(Step(s, capacity, a)) == Line(s) && Step(s, capacity, a).enqueued == s.enqueued && Step(s, capacity, a).places == s.places
  {
    if a.Take? && s.inFlight.None? && s.q.items != [] && !s.q.finished {
      assert s.q.items == [s.q.items[0]] + s.q.items[1..] && s.workerLog + [] == s.workerLog;
      Associate(s.workerLog, [s.q.items[0]], s.q.items[1..]);
    } else if a.CallSink? && s.inFlight.Some? && !s.sunk {
      assert s.workerLog + [s.inFlight.value] + [] == s.workerLog + [s.inFlight.value];
    }
  }

  lemma {:induction false} RunIsPlaced(capacity: nat, actions: seq<Action>)
    ensures Placed(Run(capacity, actions))
  {
    if actions != [] {
      var before, a := actions[..|actions| - 1], actions[|actions| - 1];
      var s := Run(capacity, before);
      RunIsPlaced(capacity, before);
      if a.Offer? {
        OfferKeepsPlaced(s, capacity, a.record);
      } else {
        RunKeepsInv(capacity, before);
        WorkerKeepsLine(s, capacity, a);
      }
    }
  }

  /** In every interleaving, evictions included, the sink sees enqueued records, each at most once: the one at its place. */
  lemma {:induction false} SinkSeesPlaces(capacity: nat, actions: seq<Action>, i: nat)
    requires i < |Run(capacity, actions).workerLog|
    ensures var s := Run(capacity, actions);
            && |s.places| >= |s.workerLog| && s.places[i] < |s.enqueued| && s.workerLog[i] == s.enqueued[s.places[i]]
            && forall j | 0 <= j < |s.workerLog| && j != i :: s.places[j] != s.places[i]
  {
    RunIsPlaced(capacity, actions);
    var s := Run(capacity, actions);
    assert Line(s)[i] == s.workerLog[i];
  }

  /** The line is in the order in which its records were enqueued. */
  ghost predicate Increasing(places: seq<nat>) { forall i, j | 0 <= i < j < |places| :: places[i] < places[j] }

  /** An eviction whose victim does not stand last: the new record takes a place before records that came earlier. */
  predicate Overtakes(s: System, capacity: nat, r: Record) {
    Push(s.q, capacity, r).1.Evicted? && FirstYielding(s.q.items, r) < |s.q.items| - 1
  }

  lemma {:induction false} ReplacedIncreases(places: seq<nat>, at: nat, place: nat)
    requires Increasing(places) && at < |places| && forall i | 0 <= i < |places| :: places[i] < place
    ensures Increasing(places[at := place]) <==> at == |places| - 1
  {
    var changed := places[at := place];
    if at < |places| - 1 { assert changed[at] > changed[at + 1]; }
  }

  /** A line in order stays in order under an offer if and only if the record does not overtake. */
  lemma {:induction false} OrderIsKeptIff(s: System, capacity: nat, r: Record)
    requires Placed(s) && Increasing(s.places)
    ensures Increasing(OfferStep(s, capacity, r).places) <==> !Overtakes(s, capacity, r)
  {
    if Push(s.q, capacity, r).1.Evicted? {
      var k := FirstYielding(s.q.items, r);
      ReplacedIncreases(s.places, |s.places| - (|s.q.items| - k), |s.enqueued|);
    }
  }

  /** No offer of the run overtakes. */
  ghost predicate NeverOvertakes(capacity: nat, actions: seq<Action>) { forall i | 0 <= i < |actions| :: KeepsPlace(capacity, actions, i) }

  ghost predicate KeepsPlace(capacity: nat, actions: seq<Action>, i: nat)
    requires i < |actions|
  {
    actions[i].Offer? ==> !Overtakes(Run(capacity, actions[..i]), capacity, actions[i].record)
  }

  lemma {:induction false} NeverBefore(capacity: nat, actions: seq<Action>, n: nat)
    requires NeverOvertakes(capacity, actions) && n <= |actions|
    ensures NeverOvertakes(capacity, actions[..n])
  {
    forall i | 0 <= i < n ensures KeepsPlace(capacity, actions[..n], i) {
      assert KeepsPlace(capacity, actions, i);
      assert actions[..n][..i] == actions[..i];
    }
  }

  lemma {:induction false} StepKeepsPlaces(s: System, capacity: nat, a: Action)
    requires Placed(s) && Increasing(s.places) && (s.inFlight.None? ==> !s.sunk) && (a.Offer? ==> !Overtakes(s, capacity, a.record))
    ensures Increasing(Step(s, capacity, a).places)
  {
    if a.Offer? { OrderIsKeptIff(s, capacity, a.record); } else { WorkerKeepsLine(s, capacity, a); }
  }

  /** Order over whole runs: as long as no record overtakes, the sink sees the records in the order they were enqueued. */
  lemma {:induction false} FifoWithoutOvertaking(capacity: nat, actions: seq<Action>)
    requires NeverOvertakes(capacity, actions)
    ensures Increasing(Run(capacity, actions).places)
    decreases |actions|
  {
    if actions != [] {
      var n := |actions| - 1;
      NeverBefore(capacity, actions, n);
      FifoWithoutOvertaking(capacity, actions[..n]);
      RunIsPlaced(capacity, actions[..n]);
      RunKeepsInv(capacity, actions[..n]);
      assert KeepsPlace(capacity, actions, n);
      StepKeepsPlaces(Run(capacity, actions[..n]), capacity, actions[n]);
    }
  }

  // ---------- the worker drains the queue ----------

  /** One full turn of the worker. */
  function Turn(s: System, capacity: nat): System {
    Step(Step(Step(s, capacity, Take), capacity, CallSink), capacity, Acknowledge)
  }

  function Turns(s: System, capacity: nat, n: nat): System
    decreases n
  {
    if n == 0 then s else Turns(Turn(s, capacity), capacity, n - 1)
  }

  lemma {:induction false} TurnWritesOne(s: System, capacity: nat)
    requires Inv(s, capacity) && s.inFlight.None? && !s.q.finished && s.q.items != []
    ensures var t := Turn(s, capacity);
            && Inv(t, capacity) && t.inFlight.None? && !t.q.finished
            && t.q.items == s.q.items[1..] && t.workerLog == s.workerLog + [s.q.items[0]]
            && t.q.pushedSeq == s.q.pushedSeq && t.evictions == s.evictions
  {
    StepKeepsInv(s, capacity, Take);
    StepKeepsInv(Step(s, capacity, Take), capacity, CallSink);
    StepKeepsInv(Step(Step(s, capacity, Take), capacity, CallSink), capacity, Acknowledge);
  }

  /** As many turns as there are records empty the queue, in order, and then every earlier flush returns if nothing was evicted. */
  lemma {:induction false} WorkerDrains(s: System, capacity: nat, target: nat)
    requires Inv(s, capacity) && s.inFlight.None? && !s.q.finished && target <= s.q.pushedSeq
    ensures var u := Turns(s, capacity, |s.q.items|);
            && Drained(u) && u.workerLog == s.workerLog + s.q.items
            && (s.evictions == 0 ==> FlushReturns(u, target))
    decreases |s.q.items|
  {
    if s.q.items == [] {
      assert s.workerLog + s.q.items == s.workerLog;
    } else {
      TurnWritesOne(s, capacity);
      WorkerDrains(Turn(s, capacity), capacity, target);
      assert s.q.items == [s.q.items[0]] + s.q.items[1..];
      Associate(s.workerLog, [s.q.items[0]], s.q.items[1..]);
    }
  }

  /** Stopping: the queued records are written in order, the worker ends, and every flush returns, evictions or not. */
  lemma {:induction false} StopDrainsEverything(s: System, capacity: nat, target: nat)
    requires Inv(s, capacity) && s.inFlight.None? && !s.q.finished
    ensures var u := Step(Turns(Step(s, capacity, Stop), capacity, |s.q.items|), capacity, Finish);
            && u.q.finished && Drained(u) && u.workerLog == s.workerLog + s.q.items && FlushReturns(u, target)
  {
    var stopped := Step(s, capacity, Stop);
    StepKeepsInv(s, capacity, Stop);
    WorkerDrains(stopped, capacity, 0);
    StaysStopped(stopped, capacity, |s.q.items|);
  }

  lemma {:induction false} StaysStopped(s: System, capacity: nat, n: nat)
    requires s.q.stopping
    ensures Turns(s, capacity, n).q.stopping
    decreases n
  {
    if n > 0 { StaysStopped(Turn(s, capacity), capacity, n - 1); }
  }
}
