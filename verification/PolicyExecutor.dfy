/**
  The policy executor on top of booster and locker (source/policy/policy_executor.cpp): desired
  state is reconciled with held state, failures are reported and counted, and after too many in a
  row the executor stops touching the system.
 */
module PolicyExecutor {
  import B = PriorityBooster
  import L = PowerLocker

  datatype Config = Config(
    priorityEnabled: bool, priorityLevel: B.Level, boosterMax: B.Level,
    executionRequired: bool, displayRequired: bool, haltAfter: nat)

  /** The part of a decision and of the observed game the executor looks at. */
  datatype Target = Target(boostSuggested: bool, gameId: string, pid: nat, creation: nat, running: bool)

  /** The executor's own fields; an empty game id means that no boost is held. */
  datatype Held = Held(gameId: string, pid: nat, power: bool, display: bool, failures: nat, halted: bool)

  const NOTHING_HELD := Held("", 0, false, false, 0, false)

  datatype Stack = Stack(held: Held, booster: B.World, locker: L.Locks)

  /** What the system answers to every call one reconciliation can make. */
  datatype Answers = Answers(
    preRelease: B.ReleaseAnswers, innerRelease: B.ReleaseAnswers, acquire: B.AcquireAnswers,
    execution: L.LockAnswers, display: L.LockAnswers)

  // ---------- reconciliation ----------

  function BoostDesired(c: Config, t: Target): bool { c.priorityEnabled && t.running && t.boostSuggested }

  /** Releases the held boost; on failure everything stays and can be retried. */
  function LetGo(s: Stack, r: B.ReleaseAnswers): (Stack, bool) {
    var (w, ok) := B.Release(s.booster, s.held.gameId, s.held.pid, r);
    if ok then (s.(booster := w, held := s.held.(gameId := "")), true) else (s.(booster := w), false)
  }

  function TakeBoost(c: Config, s: Stack, t: Target, a: Answers): (Stack, bool) {
    var (w, ok) := B.Acquire(s.booster, c.boosterMax, t.gameId, t.pid, t.creation, c.priorityLevel, a.innerRelease, a.acquire);
    if ok then (s.(booster := w, held := s.held.(gameId := t.gameId, pid := t.pid)), true) else (s.(booster := w), false)
  }

  function ReconcilePriority(c: Config, s: Stack, t: Target, a: Answers): (Stack, bool) {
    if BoostDesired(c, t) then
      if t.pid == 0 then (s, true)
      else if s.held.gameId == t.gameId && s.held.pid == t.pid then (s, true)
      else if s.held.gameId != "" then
        var (s1, released) := LetGo(s, a.preRelease);
        if released then TakeBoost(c, s1, t, a) else (s1, false)
      else TakeBoost(c, s, t, a)
    else if s.held.gameId != "" then LetGo(s, a.preRelease)
    else (s, true)
  }

  function IsHeld(h: Held, k: L.LockType): bool { if k == L.ExecutionRequired then h.power else h.display }

  function Mark(h: Held, k: L.LockType, b: bool): Held { if k == L.ExecutionRequired then h.(power := b) else h.(display := b) }

  function ReconcileLock(s: Stack, k: L.LockType, desired: bool, a: L.LockAnswers): (Stack, bool) {
    if desired && !IsHeld(s.held, k) then
      var (l, ok) := L.Acquire(s.locker, k, a);
      (s.(locker := l, held := if ok then Mark(s.held, k, true) else s.held), ok)
    else if !desired && IsHeld(s.held, k) then
      var (l, ok) := L.Release(s.locker, k, a);
      (s.(locker := l, held := if ok then Mark(s.held, k, false) else s.held), ok)
    else (s, true)
  }

  function ReconcilePower(c: Config, s: Stack, t: Target, a: Answers): (Stack, bool) {
    var (s1, ok) := ReconcileLock(s, L.ExecutionRequired, c.executionRequired && t.running, a.execution);
    if !ok then (s1, false) else ReconcileLock(s1, L.DisplayRequired, c.displayRequired && t.running, a.display)
  }

  /** A failed round counts towards the halt; counting is off when the threshold is 0. */
  function CountFailure(c: Config, h: Held): Held {
    if c.haltAfter == 0 then h
    else h.(failures := h.failures + 1, halted := h.halted || h.failures + 1 >= c.haltAfter)
  }

  function Apply(c: Config, s: Stack, t: Target, a: Answers): (Stack, bool) {
    if s.held.halted then (s, true)
    else
      var (s1, ok1) := ReconcilePriority(c, s, t, a);
      if !ok1 then (s1.(held := CountFailure(c, s1.held)), false)
      else
        var (s2, ok2) := ReconcilePower(c, s1, t, a);
        if !ok2 then (s2.(held := CountFailure(c, s2.held)), false)
        else (s2.(held := s2.held.(failures := 0)), true)
  }

  /** Everything marked as held is released once, and the marks are cleared whatever comes of it. */
  function AllReleased(s: Stack, a: Answers): Stack {
    var s1 := if s.held.gameId != "" then s.(booster := B.Release(s.booster, s.held.gameId, s.held.pid, a.preRelease).0) else s;
    var s2 := if s.held.power then s1.(locker := L.Release(s1.locker, L.ExecutionRequired, a.execution).0) else s1;
    var s3 := if s.held.display then s2.(locker := L.Release(s2.locker, L.DisplayRequired, a.display).0) else s2;
    s3.(held := s.held.(gameId := "", power := false, display := false))
  }

  class Executor {
    const config: Config
    const booster: B.Booster
    const locker: L.Locker
    var gameId: string
    var pid: nat
    var power: bool
    var display: bool
    var failures: nat
    var halted: bool

    ghost function State(): Stack reads this, booster, locker {
      Stack(Held(gameId, pid, power, display, failures, halted), booster.State(), locker.State())
    }

    constructor (config: Config, booster: B.Booster, locker: L.Locker)
      requires booster.maxLevel == config.boosterMax
      ensures this.config == config && this.booster == booster && this.locker == locker
      ensures State() == Stack(NOTHING_HELD, booster.State(), locker.State())
    {
      this.config, this.booster, this.locker := config, booster, locker;
      gameId, pid, power, display, failures, halted := "", 0, false, false, 0, false;
    }

    method ReconcilePriorityStep(t: Target, a: Answers) returns (ok: bool)
      requires booster.maxLevel == config.boosterMax
      modifies this`gameId, this`pid, booster
      ensures (State(), ok) == ReconcilePriority(config, old(State()), t, a)
    {
      var desired := config.priorityEnabled && t.running && t.boostSuggested;
      if desired {
        if t.pid == 0 { return true; }
        if gameId == t.gameId && pid == t.pid { return true; }
        if gameId != "" {
          var released := booster.ReleaseBoost(gameId, pid, a.preRelease);
          if !released { return false; }
          gameId := "";
        }
        var acquired := booster.AcquireBoost(t.gameId, t.pid, t.creation, config.priorityLevel, a.innerRelease, a.acquire);
        if !acquired { return false; }
        gameId, pid := t.gameId, t.pid;
        return true;
      }
      if gameId != "" {
        var released := booster.ReleaseBoost(gameId, pid, a.preRelease);
        if !released { return false; }
        gameId := "";
      }
      return true;
    }

    method ReconcilePowerLock(k: L.LockType, desired: bool, a: L.LockAnswers) returns (ok: bool)
      modifies this`power, this`display, locker
      ensures (State(), ok) == ReconcileLock(old(State()), k, desired, a)
    {
      var held := if k == L.ExecutionRequired then power else display;
      if desired && !held {
        var locked := locker.AcquireLock(k, a);
        if !locked { return false; }
        if k == L.ExecutionRequired { power := true; } else { display := true; }
        return true;
      }
      if !desired && held {
        var released := locker.ReleaseLock(k, a);
        if !released { return false; }
        if k == L.ExecutionRequired { power := false; } else { display := false; }
      }
      return true;
    }

    method ReconcilePowerStep(t: Target, a: Answers) returns (ok: bool)
      modifies this`power, this`display, locker
      ensures (State(), ok) == ReconcilePower(config, old(State()), t, a)
    {
      var execution := ReconcilePowerLock(L.ExecutionRequired, config.executionRequired && t.running, a.execution);
      if !execution { return false; }
      ok := ReconcilePowerLock(L.DisplayRequired, config.displayRequired && t.running, a.display);
    }

    method NoteFailure()
      modifies this`failures, this`halted
      ensures State() == old(State()).(held := CountFailure(config, old(State()).held))
    {
      if config.haltAfter > 0 {
        failures := failures + 1;
        if failures >= config.haltAfter { halted := true; }
      }
    }

    method ApplyDecision(t: Target, a: Answers) returns (ok: bool)
      requires booster.maxLevel == config.boosterMax
      modifies this, booster, locker
      ensures (State(), ok) == Apply(config, old(State()), t, a)
    {
      if halted { return true; }
      var priority := ReconcilePriorityStep(t, a);
      if !priority {
        NoteFailure();
        return false;
      }
      var powerOk := ReconcilePowerStep(t, a);
      if !powerOk {
        NoteFailure();
        return false;
      }
      failures := 0;
      return true;
    }

    method ReleaseHeldBoost(a: B.ReleaseAnswers)
      requires B.HandlesMatch(booster.State())
      modifies this`gameId, booster
      ensures gameId == "" && B.HandlesMatch(booster.State())
      ensures booster.State() == if old(gameId) != "" then B.Release(old(booster.State()), old(gameId), pid, a).0 else old(booster.State())
    {
      if gameId != "" {
        B.ReleaseKeepsHandles(booster.State(), gameId, pid, a);
        var _ := booster.ReleaseBoost(gameId, pid, a);
        gameId := "";
      }
    }

    method ReleaseHeldLock(k: L.LockType, held: bool, a: L.LockAnswers)
      requires L.HandlesMatch(locker.State())
      modifies locker
      ensures L.HandlesMatch(locker.State())
      ensures locker.State() == if held then L.Release(old(locker.State()), k, a).0 else old(locker.State())
    {
      if held {
        L.ReleaseKeepsHandles(locker.State(), k, a);
        var _ := locker.ReleaseLock(k, a);
      }
    }

    /** Best effort on exit: the flags are cleared even where the release fails. */
    method ReleaseAll(a: Answers)
      requires B.HandlesMatch(booster.State()) && L.HandlesMatch(locker.State())
      modifies this, booster, locker
      ensures State() == AllReleased(old(State()), a)
      ensures B.HandlesMatch(booster.State()) && L.HandlesMatch(locker.State())
    {
      ReleaseHeldBoost(a.preRelease);
      ReleaseHeldLock(L.ExecutionRequired, power, a.execution);
      power := false;
      ReleaseHeldLock(L.DisplayRequired, display, a.display);
      display := false;
    }

    /** Destroying the whole stack, with whatever answers, leaves no handle open. */
    method Destroy(a: Answers, rest: map<string, B.ReleaseAnswers>)
      requires B.HandlesMatch(booster.State()) && L.HandlesMatch(locker.State())
      requires booster.leases.Keys <= rest.Keys
      modifies this, booster, locker
      ensures booster.open == map[] && locker.open == {} && booster.leases == map[]
    {
      ReleaseAll(a);
      B.HandlesCoverOpen(booster.State());
      booster.ReleaseAll(map g | g in booster.leases :: if g in rest then rest[g] else a.preRelease);
      locker.ReleaseAll();
    }
  }

  // ---------- what is held is what the flags say ----------

  ghost predicate BoostMatches(h: Held, w: B.World) {
    && B.HandlesMatch(w)
    && (h.gameId == "" ==> w.leases == map[])
    && (h.gameId != "" ==> w.leases.Keys == {h.gameId} && w.leases[h.gameId].pid == h.pid && w.leases[h.gameId].count == 1)
  }

  ghost predicate LocksMatch(h: Held, l: L.Locks) {
    && L.HandlesMatch(l)
    && l.execution.count == (if h.power then 1 else 0)
    && l.display.count == (if h.display then 1 else 0)
  }

  /** The flags mirror the leases and locks, no count exceeds one, and open handles are one per held thing. */
  ghost predicate InStep(s: Stack) { BoostMatches(s.held, s.booster) && LocksMatch(s.held, s.locker) }

  lemma {:induction false} BoostIsGoneIff(s: Stack, r: B.ReleaseAnswers)
    requires BoostMatches(s.held, s.booster) && s.held.gameId != ""
    ensures var (w, ok) := B.Release(s.booster, s.held.gameId, s.held.pid, r); w.leases == map[] <==> ok
  {
    var (w, ok) := B.Release(s.booster, s.held.gameId, s.held.pid, r);
    assert ok ==> w.leases.Keys == s.booster.leases.Keys - {s.held.gameId};
    assert !ok ==> s.held.gameId in w.leases;
  }

  lemma {:induction false} LocksAreGoneIff(h: Held, l: L.Locks, a: Answers)
    requires LocksMatch(h, l)
    ensures var m := if h.power then L.Release(l, L.ExecutionRequired, a.execution).0 else l;
            var u := if h.display then L.Release(m, L.DisplayRequired, a.display).0 else m;
            && (u.execution == L.UNLOCKED <==> !h.power || a.execution.clearOk)
            && (u.display == L.UNLOCKED <==> !h.display || a.display.clearOk)
  {
  }

  /** A stack in step is empty afterwards exactly where the release succeeded or nothing was held. */
  lemma {:induction false} AllReleasedIsEmptyIff(s: Stack, a: Answers)
    requires InStep(s)
    ensures var u := AllReleased(s, a);
            && (u.booster.leases == map[] <==> s.held.gameId == "" || B.Release(s.booster, s.held.gameId, s.held.pid, a.preRelease).1)
            && (u.locker.execution == L.UNLOCKED <==> !s.held.power || a.execution.clearOk)
            && (u.locker.display == L.UNLOCKED <==> !s.held.display || a.display.clearOk)
  {
    if s.held.gameId != "" { BoostIsGoneIff(s, a.preRelease); }
    LocksAreGoneIff(s.held, s.locker, a);
  }

  lemma {:induction false} LetGoKeeps(s: Stack, r: B.ReleaseAnswers)
    requires InStep(s) && s.held.gameId != ""
    ensures InStep(LetGo(s, r).0)
    ensures LetGo(s, r).1 ==> LetGo(s, r).0.held.gameId == "" && LetGo(s, r).0.booster.leases == map[]
  {
    B.ReleaseKeepsHandles(s.booster, s.held.gameId, s.held.pid, r);
    var w := B.Release(s.booster, s.held.gameId, s.held.pid, r).0;
    if LetGo(s, r).1 {
      assert w.leases.Keys == s.booster.leases.Keys - {s.held.gameId};
      assert w.leases == map[];
    }
  }

  /** What makes an acquisition succeed when nothing is leased. */
  predicate AcquireSucceeds(c: Config, t: Target, a: Answers) {
    && c.priorityLevel != B.NoLevel && B.Rank(c.priorityLevel) <= B.Rank(c.boosterMax)
    && a.acquire.openOk && !(t.creation != 0 && (a.acquire.creation == 0 || a.acquire.creation != t.creation))
    && a.acquire.class_ != 0 && a.acquire.setOk
  }

  lemma {:induction false} TakeBoostResult(c: Config, s: Stack, t: Target, a: Answers)
    requires InStep(s) && s.held.gameId == ""
    ensures var (u, ok) := TakeBoost(c, s, t, a);
            && B.HandlesMatch(u.booster) && u.locker == s.locker && ok == AcquireSucceeds(c, t, a)
            && (!ok ==> u.booster.leases == map[] && u.held == s.held)
            && (ok ==> u.booster.leases.Keys == {t.gameId} && u.booster.leases[t.gameId].pid == t.pid && u.booster.leases[t.gameId].count == 1)
  {
    B.AcquireKeepsHandlesIff(s.booster, c.boosterMax, t.gameId, t.pid, t.creation, c.priorityLevel, a.innerRelease, a.acquire);
  }

  lemma {:induction false} TakeBoostKeeps(c: Config, s: Stack, t: Target, a: Answers)
    requires InStep(s) && s.held.gameId == "" && t.gameId != ""
    ensures InStep(TakeBoost(c, s, t, a).0)
  {
    TakeBoostResult(c, s, t, a);
  }

  lemma {:induction false} PriorityKeeps(c: Config, s: Stack, t: Target, a: Answers)
    requires InStep(s) && t.gameId != ""
    ensures InStep(ReconcilePriority(c, s, t, a).0)
  {
    if s.held.gameId == "" {
      TakeBoostKeeps(c, s, t, a);
    } else {
      LetGoKeeps(s, a.preRelease);
      var (s1, released) := LetGo(s, a.preRelease);
      if released { TakeBoostKeeps(c, s1, t, a); }
    }
  }

  lemma {:induction false} LockKeeps(s: Stack, k: L.LockType, desired: bool, a: L.LockAnswers)
    requires InStep(s)
    ensures InStep(ReconcileLock(s, k, desired, a).0)
  {
    L.AcquireKeepsHandles(s.locker, k, a);
    L.ReleaseKeepsHandles(s.locker, k, a);
  }

  lemma {:induction false} PowerKeeps(c: Config, s: Stack, t: Target, a: Answers)
    requires InStep(s)
    ensures InStep(ReconcilePower(c, s, t, a).0)
  {
    LockKeeps(s, L.ExecutionRequired, c.executionRequired && t.running, a.execution);
    var s1 := ReconcileLock(s, L.ExecutionRequired, c.executionRequired && t.running, a.execution).0;
    LockKeeps(s1, L.DisplayRequired, c.displayRequired && t.running, a.display);
  }

  lemma {:induction false} CountingKeeps(c: Config, s: Stack)
    requires InStep(s)
    ensures InStep(s.(held := CountFailure(c, s.held))) && InStep(s.(held := s.held.(failures := 0)))
  {
  }

  lemma {:induction false} ApplyFromPriority(c: Config, s: Stack, t: Target, a: Answers)
    requires !s.held.halted && InStep(ReconcilePriority(c, s, t, a).0)
    ensures InStep(Apply(c, s, t, a).0)
  {
    var (s1, ok1) := ReconcilePriority(c, s, t, a);
    CountingKeeps(c, s1);
    if ok1 {
      PowerKeeps(c, s1, t, a);
      CountingKeeps(c, ReconcilePower(c, s1, t, a).0);
    }
  }

  /** One round keeps flags, leases, locks and handles in step, whatever the system answers. */
  lemma {:induction false} ApplyKeepsInStep(c: Config, s: Stack, t: Target, a: Answers)
    requires InStep(s) && t.gameId != ""
    ensures InStep(Apply(c, s, t, a).0)
  {
    if !s.held.halted {
      PriorityKeeps(c, s, t, a);
      ApplyFromPriority(c, s, t, a);
    }
  }

  datatype Round = Round(target: Target, answers: Answers)

  function Run(c: Config, s: Stack, rounds: seq<Round>): Stack {
    if rounds == [] then s
    else Apply(c, Run(c, s, rounds[..|rounds| - 1]), rounds[|rounds| - 1].target, rounds[|rounds| - 1].answers).0
  }

  const IDLE := Stack(NOTHING_HELD, B.World(map[], map[], map[], 1), L.Locks(L.UNLOCKED, L.UNLOCKED, {}, 1))

  /**
    For every run of rounds with named games and arbitrary failures: the flags match booster and
    locker exactly, all counts stay at most one, and there is one open handle per held thing.
   */
  lemma {:induction false} RunStaysInStep(c: Config, classes: map<nat, nat>, rounds: seq<Round>)
    requires forall i | 0 <= i < |rounds| :: rounds[i].target.gameId != ""
    ensures InStep(Run(c, IDLE.(booster := IDLE.booster.(classes := classes)), rounds))
    decreases |rounds|
  {
    if rounds != [] {
      var init, last := rounds[..|rounds| - 1], rounds[|rounds| - 1];
      RunStaysInStep(c, classes, init);
      ApplyKeepsInStep(c, Run(c, IDLE.(booster := IDLE.booster.(classes := classes)), init), last.target, last.answers);
    }
  }

  /** The round that boosts a game without a name: the executor cannot tell such a boost from none. */
  predicate BoostsUnnamed(c: Config, s: Stack, t: Target, a: Answers) {
    && !s.held.halted && c.priorityEnabled && t.running && t.boostSuggested && t.pid != 0 && t.gameId == ""
    && !(s.held.gameId == "" && s.held.pid == t.pid)
    && (s.held.gameId != "" ==> LetGo(s, a.preRelease).1)
    && AcquireSucceeds(c, t, a)
  }

  lemma {:induction false} UnnamedBoostIsForgotten(c: Config, s: Stack, t: Target, a: Answers)
    requires InStep(s) && BoostsUnnamed(c, s, t, a)
    ensures !InStep(Apply(c, s, t, a).0)
  {
    var before := s;
    if s.held.gameId != "" {
      LetGoKeeps(s, a.preRelease);
      before := LetGo(s, a.preRelease).0;
    }
    TakeBoostResult(c, before, t, a);
    var s1 := ReconcilePriority(c, s, t, a).0;
    assert s1.held.gameId == "" && "" in s1.booster.leases;
    OnlyPriorityBoosts(c, s, t, a);
  }

  /** What a round leaves of the boost is what reconciling the priority left. */
  lemma {:induction false} OnlyPriorityBoosts(c: Config, s: Stack, t: Target, a: Answers)
    requires !s.held.halted
    ensures Apply(c, s, t, a).0.booster == ReconcilePriority(c, s, t, a).0.booster
    ensures Apply(c, s, t, a).0.held.gameId == ReconcilePriority(c, s, t, a).0.held.gameId
  {
    PowerLeavesTheBoost(c, ReconcilePriority(c, s, t, a).0, t, a);
  }

  lemma {:induction false} PowerLeavesTheBoost(c: Config, s: Stack, t: Target, a: Answers)
    ensures ReconcilePower(c, s, t, a).0.booster == s.booster && ReconcilePower(c, s, t, a).0.held.gameId == s.held.gameId
  {
  }

  /** A round stays in step if and only if it does not boost a game without a name. */
  lemma {:induction false} InStepIffNamed(c: Config, s: Stack, t: Target, a: Answers)
    requires InStep(s)
    ensures InStep(Apply(c, s, t, a).0) <==> !BoostsUnnamed(c, s, t, a)
  {
    if BoostsUnnamed(c, s, t, a) {
      UnnamedBoostIsForgotten(c, s, t, a);
    } else if !s.held.halted {
      UnnamedFailureKeeps(c, s, t, a);
      ApplyFromPriority(c, s, t, a);
    }
  }

  lemma {:induction false} UnnamedFailureKeeps(c: Config, s: Stack, t: Target, a: Answers)
    requires InStep(s) && !s.held.halted && !BoostsUnnamed(c, s, t, a)
    ensures InStep(ReconcilePriority(c, s, t, a).0)
  {
    if t.gameId != "" {
      PriorityKeeps(c, s, t, a);
    } else if s.held.gameId == "" {
      TakeBoostResult(c, s, t, a);
    } else {
      LetGoKeeps(s, a.preRelease);
      var (s1, released) := LetGo(s, a.preRelease);
      if released { TakeBoostResult(c, s1, t, a); }
    }
  }

  // ---------- what a round may and must not do ----------

  /** A game that is not running is never boosted: no process is opened and no lease is added. */
  lemma {:induction false} IdleGameIsNeverBoosted(c: Config, s: Stack, t: Target, a: Answers)
    requires !t.running
    ensures Apply(c, s, t, a).0.booster.nextHandle == s.booster.nextHandle
    ensures Apply(c, s, t, a).0.booster.leases.Keys <= s.booster.leases.Keys
    ensures Apply(c, s, t, a).1 && !s.held.halted ==> Apply(c, s, t, a).0.held.gameId == ""
  {
    if !s.held.halted { OnlyPriorityBoosts(c, s, t, a); }
  }

  /**
    The priority feature is off: whatever game runs and whatever the decision suggests, no process is opened, no lease is added,
    and a successful round holds no boost.
   */
  lemma {:induction false} DisabledPriorityNeverBoosts(c: Config, s: Stack, t: Target, a: Answers)
    requires !c.priorityEnabled
    ensures Apply(c, s, t, a).0.booster.nextHandle == s.booster.nextHandle
    ensures Apply(c, s, t, a).0.booster.leases.Keys <= s.booster.leases.Keys
    ensures Apply(c, s, t, a).1 && !s.held.halted ==> Apply(c, s, t, a).0.held.gameId == ""
  {
    if !s.held.halted { OnlyPriorityBoosts(c, s, t, a); }
  }

  /** The same when the decision suggests no boost. */
  lemma {:induction false} NoSuggestionNoBoost(c: Config, s: Stack, t: Target, a: Answers)
    requires !t.boostSuggested
    ensures Apply(c, s, t, a).0.booster.nextHandle == s.booster.nextHandle
    ensures Apply(c, s, t, a).0.booster.leases.Keys <= s.booster.leases.Keys
    ensures Apply(c, s, t, a).1 && !s.held.halted ==> Apply(c, s, t, a).0.held.gameId == ""
  {
    if !s.held.halted { OnlyPriorityBoosts(c, s, t, a); }
  }

  /** A boost that is wanted but has no process, or is held already, leaves the booster alone. */
  lemma {:induction false} NothingToBoost(c: Config, s: Stack, t: Target, a: Answers)
    requires c.priorityEnabled && t.running && t.boostSuggested
    requires t.pid == 0 || (s.held.gameId == t.gameId && s.held.pid == t.pid)
    ensures Apply(c, s, t, a).0.booster == s.booster && Apply(c, s, t, a).0.held.gameId == s.held.gameId
  {
    if !s.held.halted { OnlyPriorityBoosts(c, s, t, a); }
  }

  /** A round whose boost fails does not come to the power requests. */
  lemma {:induction false} FailedBoostSkipsPower(c: Config, s: Stack, t: Target, a: Answers)
    requires !s.held.halted && !ReconcilePriority(c, s, t, a).1
    ensures Apply(c, s, t, a).0.locker == s.locker && !Apply(c, s, t, a).1
  {
  }

  /** A threshold of 0 counts nothing and never halts. */
  lemma {:induction false} NoThresholdNoHalt(c: Config, s: Stack, rounds: seq<Round>)
    requires c.haltAfter == 0 && !s.held.halted && s.held.failures == 0
    ensures !Run(c, s, rounds).held.halted && Run(c, s, rounds).held.failures == 0
    decreases |rounds|
  {
    if rounds != [] {
      var init, last := rounds[..|rounds| - 1], rounds[|rounds| - 1];
      NoThresholdNoHalt(c, s, init);
      UncountedRound(c, Run(c, s, init), last.target, last.answers);
    }
  }

  lemma {:induction false} UncountedRound(c: Config, s: Stack, t: Target, a: Answers)
    requires c.haltAfter == 0 && !s.held.halted && s.held.failures == 0
    ensures !Apply(c, s, t, a).0.held.halted && Apply(c, s, t, a).0.held.failures == 0
  {
    ReconcilingKeepsCounters(c, s, t, a);
    ReconcilingKeepsCounters(c, ReconcilePriority(c, s, t, a).0, t, a);
  }

  lemma {:induction false} PriorityReachesDesired(c: Config, s: Stack, t: Target, a: Answers)
    requires InStep(s) && t.gameId != "" && ReconcilePriority(c, s, t, a).1
    ensures var h := ReconcilePriority(c, s, t, a).0.held;
            && (c.priorityEnabled && t.running && t.boostSuggested && t.pid != 0 ==> h.gameId == t.gameId && h.pid == t.pid)
            && (!(c.priorityEnabled && t.running && t.boostSuggested) ==> h.gameId == "")
  {
  }

  lemma {:induction false} PowerReachesDesired(c: Config, s: Stack, t: Target, a: Answers)
    requires ReconcilePower(c, s, t, a).1
    ensures var h := ReconcilePower(c, s, t, a).0.held;
            && h.power == (c.executionRequired && t.running) && h.display == (c.displayRequired && t.running)
            && h.gameId == s.held.gameId && h.pid == s.held.pid
  {
  }

  /** A successful round reaches the desired state: exactly the wanted locks, and the boost on the wanted process. */
  lemma {:induction false} SuccessReachesDesired(c: Config, s: Stack, t: Target, a: Answers)
    requires InStep(s) && t.gameId != "" && !s.held.halted && Apply(c, s, t, a).1
    ensures var h := Apply(c, s, t, a).0.held;
            && h.power == (c.executionRequired && t.running) && h.display == (c.displayRequired && t.running)
            && (c.priorityEnabled && t.running && t.boostSuggested && t.pid != 0 ==> h.gameId == t.gameId && h.pid == t.pid)
            && (!(c.priorityEnabled && t.running && t.boostSuggested) ==> h.gameId == "")
  {
    PriorityReachesDesired(c, s, t, a);
    PowerReachesDesired(c, ReconcilePriority(c, s, t, a).0, t, a);
  }

  /** A boost that a round newly takes is at the configured level: the process is in its class. */
  lemma {:induction false} NewBoostIsAtTheLevel(c: Config, s: Stack, t: Target, a: Answers)
    requires InStep(s) && t.gameId != "" && !s.held.halted && Apply(c, s, t, a).1
    requires c.priorityEnabled && t.running && t.boostSuggested && t.pid != 0 && !(s.held.gameId == t.gameId && s.held.pid == t.pid)
    ensures var w := Apply(c, s, t, a).0.booster;
            && c.priorityLevel != B.NoLevel && t.gameId in w.leases && t.pid in w.classes
            && w.leases[t.gameId].level == c.priorityLevel && w.leases[t.gameId].pid == t.pid
            && w.classes[t.pid] == w.leases[t.gameId].target == (if c.priorityLevel == B.High then 0x80 else 0x8000)
  {
    OnlyPriorityBoosts(c, s, t, a);
    var before := if s.held.gameId != "" then LetGo(s, a.preRelease).0 else s;
    if s.held.gameId != "" { LetGoKeeps(s, a.preRelease); }
    assert ReconcilePriority(c, s, t, a) == TakeBoost(c, before, t, a);
    B.FirstLease(before.booster, c.boosterMax, t.gameId, t.pid, t.creation, c.priorityLevel, a.innerRelease, a.acquire);
  }

  function Results(c: Config, s: Stack, rounds: seq<Round>): (r: seq<bool>)
    ensures |r| == |rounds|
  {
    if rounds == [] then []
    else
      var init, last := rounds[..|rounds| - 1], rounds[|rounds| - 1];
      Results(c, s, init) + [Apply(c, Run(c, s, init), last.target, last.answers).1]
  }

  /** Length of the run of failures at the end. */
  function Streak(results: seq<bool>): nat {
    if results == [] || results[|results| - 1] then 0 else 1 + Streak(results[..|results| - 1])
  }

  lemma {:induction false} ReconcilingKeepsCounters(c: Config, s: Stack, t: Target, a: Answers)
    ensures ReconcilePriority(c, s, t, a).0.held.failures == s.held.failures && ReconcilePriority(c, s, t, a).0.held.halted == s.held.halted
    ensures ReconcilePower(c, s, t, a).0.held.failures == s.held.failures && ReconcilePower(c, s, t, a).0.held.halted == s.held.halted
  {
  }

  lemma {:induction false} CountedFailure(c: Config, s: Stack, t: Target, a: Answers)
    requires c.haltAfter > 0 && !s.held.halted
    ensures var (u, ok) := Apply(c, s, t, a);
            && u.held.failures == (if ok then 0 else s.held.failures + 1)
            && u.held.halted == (!ok && s.held.failures + 1 >= c.haltAfter)
  {
    var (s1, ok1) := ReconcilePriority(c, s, t, a);
    var (s2, ok2) := ReconcilePower(c, s1, t, a);
    ReconcilingKeepsCounters(c, s, t, a);
    ReconcilingKeepsCounters(c, s1, t, a);
    assert Apply(c, s, t, a) == if !ok1 then (s1.(held := CountFailure(c, s1.held)), false)
                                else if !ok2 then (s2.(held := CountFailure(c, s2.held)), false)
                                else (s2.(held := s2.held.(failures := 0)), true);
  }

  /** At some point the run of failures had this length. */
  predicate Reached(results: seq<bool>, n: nat) {
    Streak(results) >= n || (results != [] && Reached(results[..|results| - 1], n))
  }

  /** The halt state and the counter are what the results so far say. */
  ghost predicate Counts(c: Config, h: Held, results: seq<bool>) {
    && (h.halted <==> Reached(results, c.haltAfter))
    && (!h.halted ==> h.failures == Streak(results))
  }

  lemma {:induction false} CountsNext(c: Config, s: Stack, t: Target, a: Answers, results: seq<bool>)
    requires c.haltAfter > 0 && Counts(c, s.held, results)
    ensures Counts(c, Apply(c, s, t, a).0.held, results + [Apply(c, s, t, a).1])
  {
    var next := results + [Apply(c, s, t, a).1];
    assert next[..|next| - 1] == results;
    if !s.held.halted { CountedFailure(c, s, t, a); }
  }

  /** The executor halts exactly when some run of consecutive failures has reached the threshold. */
  lemma {:induction false} HaltsOnTheStreak(c: Config, s: Stack, rounds: seq<Round>)
    requires c.haltAfter > 0 && s.held.failures == 0 && !s.held.halted
    ensures Run(c, s, rounds).held.halted <==> Reached(Results(c, s, rounds), c.haltAfter)
    ensures !Run(c, s, rounds).held.halted ==> Run(c, s, rounds).held.failures == Streak(Results(c, s, rounds))
  {
    if rounds != [] {
      var init, last := rounds[..|rounds| - 1], rounds[|rounds| - 1];
      HaltsOnTheStreak(c, s, init);
      CountsNext(c, Run(c, s, init), last.target, last.answers, Results(c, s, init));
    }
  }

  /** A halted executor answers without touching booster or locker. */
  lemma {:induction false} HaltedIsHandsOff(c: Config, s: Stack, rounds: seq<Round>)
    requires s.held.halted
    ensures Run(c, s, rounds) == s
    decreases |rounds|
  {
    if rounds != [] { HaltedIsHandsOff(c, s, rounds[..|rounds| - 1]); }
  }
}
