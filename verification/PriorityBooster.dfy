/**
  Priority boost leases (source/priority/priority_booster.cpp): counted leases per game, a saved
  original class, and a restore that happens only while the boosted class is still in force.
  The process table and the open handles are part of the state; what each call into the system
  answers is given from outside.
 */
module PriorityBooster {
  datatype Level = NoLevel | AboveNormal | High

  function Rank(l: Level): nat { match l case NoLevel => 0 case AboveNormal => 1 case High => 2 }

  function LevelClass(l: Level): nat
    requires l != NoLevel
  {
    if l == AboveNormal then 0x8000 else 0x80
  }

  datatype Lease = Lease(pid: nat, creation: nat, handle: nat, original: nat, target: nat, level: Level, count: nat)

  /** Leases by game, the priority class of every process, and the open handles with the process each refers to. */
  datatype World = World(leases: map<string, Lease>, classes: map<nat, nat>, open: map<nat, nat>, nextHandle: nat)

  /** Answers during a release: creation time, priority class (0 when the process is gone), and the set call. */
  datatype ReleaseAnswers = ReleaseAnswers(creation: nat, class_: nat, setOk: bool)

  datatype AcquireAnswers = AcquireAnswers(openOk: bool, creation: nat, class_: nat, setOk: bool)

  // ---------- the lease machine ----------

  function CloseHandle(w: World, h: nat): World { w.(open := w.open - {h}) }

  function SetClass(w: World, pid: nat, c: nat): World { w.(classes := w.classes[pid := c]) }

  /** Drops the lease and its handle without touching the process. */
  function Drop(w: World, gameId: string): World
    requires gameId in w.leases
  {
    CloseHandle(w, w.leases[gameId].handle).(leases := w.leases - {gameId})
  }

  /** The last lease: identity and class are checked again before the original class is written back. */
  function RestoreLast(w: World, gameId: string, a: ReleaseAnswers): (World, bool)
    requires gameId in w.leases
  {
    var s := w.leases[gameId];
    if s.creation != 0 && a.creation != s.creation then (Drop(w, gameId), true)
    else if a.class_ == 0 then (Drop(w, gameId), true)
    else if a.class_ != s.target then (Drop(w, gameId), true)
    else if !a.setOk then (w.(leases := w.leases[gameId := s.(count := 1)]), false)
    else (Drop(SetClass(w, s.pid, s.original), gameId), true)
  }

  function Release(w: World, gameId: string, pid: nat, a: ReleaseAnswers): (World, bool) {
    if gameId !in w.leases then (w, true)
    else
      var s := w.leases[gameId];
      if s.pid != pid then (w, false)
      else if s.count > 1 then (w.(leases := w.leases[gameId := s.(count := s.count - 1)]), true)
      else RestoreLast(w, gameId, a)
  }

  /** Open, check identity, save the original class, set the target class; a failure on the way closes the handle. */
  function AcquireFresh(w: World, gameId: string, pid: nat, expected: nat, level: Level, a: AcquireAnswers): (World, bool)
    requires level != NoLevel
  {
    if !a.openOk then (w, false)
    else
      var h := w.nextHandle;
      var w1 := w.(open := w.open[h := pid], nextHandle := h + 1);
      if expected != 0 && (a.creation == 0 || a.creation != expected) then (CloseHandle(w1, h), false)
      else if a.class_ == 0 || !a.setOk then (CloseHandle(w1, h), false)
      else
        var lease := Lease(pid, if a.creation != 0 then a.creation else expected, h, a.class_, LevelClass(level), level, 1);
        (SetClass(w1, pid, LevelClass(level)).(leases := w.leases[gameId := lease]), true)
  }

  function Acquire(w: World, maxLevel: Level, gameId: string, pid: nat, expected: nat, level: Level,
                   r: ReleaseAnswers, a: AcquireAnswers): (World, bool)
  {
    if level == NoLevel || Rank(level) > Rank(maxLevel) then (w, false)
    else if gameId in w.leases && w.leases[gameId].pid == pid then
      (w.(leases := w.leases[gameId := w.leases[gameId].(count := w.leases[gameId].count + 1)]), true)
    else if gameId in w.leases then
      var (w1, released) := Release(w, gameId, w.leases[gameId].pid, r);
      if !released then (w1, false) else AcquireFresh(w1, gameId, pid, expected, level, a)
    else AcquireFresh(w, gameId, pid, expected, level, a)
  }

  /**
    Taking a first lease, by numbers: it succeeds exactly for a level that is one and not above the maximum, a process that opens and
    is the expected one, and a present class that can be read and changed. Then the process is in class 0x8000 or 0x80, and
    the lease remembers the class before; a failure leaves leases and classes as they were.
   */
  lemma {:induction false} FirstLease(w: World, maxLevel: Level, gameId: string, pid: nat, expected: nat, level: Level, r: ReleaseAnswers, a: AcquireAnswers)
    requires gameId !in w.leases
    ensures var (u, ok) := Acquire(w, maxLevel, gameId, pid, expected, level, r, a);
            var number := if level == High then 0x80 else 0x8000;
            && (ok <==> && ((level == AboveNormal && maxLevel != NoLevel) || (level == High && maxLevel == High))
                        && a.openOk && (expected == 0 || a.creation == expected) && a.class_ != 0 && a.setOk)
            && (ok ==> && u.classes == w.classes[pid := number] && u.open == w.open[w.nextHandle := pid] && u.nextHandle == w.nextHandle + 1
                       && u.leases == w.leases[gameId := Lease(pid, if a.creation != 0 then a.creation else expected, w.nextHandle, a.class_, number, level, 1)])
            && (!ok ==> u.leases == w.leases && u.classes == w.classes && u.open.Keys <= w.open.Keys)
  {
  }

  /** A further lease on the same process is only counted, whatever the system would answer. */
  lemma {:induction false} FurtherLease(w: World, maxLevel: Level, gameId: string, expected: nat, level: Level, r: ReleaseAnswers, a: AcquireAnswers)
    requires gameId in w.leases
    ensures var s := w.leases[gameId];
            Acquire(w, maxLevel, gameId, s.pid, expected, level, r, a) ==
              if (level == AboveNormal && maxLevel != NoLevel) || (level == High && maxLevel == High)
              then (w.(leases := w.leases[gameId := s.(count := s.count + 1)]), true) else (w, false)
  {
  }

  /**
    Giving a lease back: one of several is only counted down. With the last one the lease and its handle go unless the class
    cannot be written back; it is written back exactly when the process is the one that was boosted and still in
    the boosted class, and otherwise left as it is.
   */
  lemma {:induction false} LeaseGivenBack(w: World, gameId: string, a: ReleaseAnswers)
    requires gameId in w.leases
    ensures var s := w.leases[gameId];
            var (u, ok) := Release(w, gameId, s.pid, a);
            var same := (s.creation == 0 || a.creation == s.creation) && a.class_ != 0 && a.class_ == s.target;
            && (s.count > 1 ==> ok && u == w.(leases := w.leases[gameId := s.(count := s.count - 1)]))
            && (s.count <= 1 ==>
                  && (ok <==> !same || a.setOk)
                  && (ok ==> u.leases == w.leases - {gameId} && u.open == w.open - {s.handle})
                  && (ok ==> u.classes == if same then w.classes[s.pid := s.original] else w.classes)
                  && (!ok ==> u == w.(leases := w.leases[gameId := s.(count := 1)])))
  {
  }

  /** Nothing is given back for a game without a lease, or under another process id. */
  lemma {:induction false} NothingGivenBack(w: World, gameId: string, pid: nat, a: ReleaseAnswers)
    requires gameId !in w.leases || w.leases[gameId].pid != pid
    ensures Release(w, gameId, pid, a) == (w, gameId !in w.leases)
  {
  }

  class Booster {
    const maxLevel: Level
    var leases: map<string, Lease>
    var classes: map<nat, nat>
    var open: map<nat, nat>
    var nextHandle: nat

    ghost function State(): World reads this { World(leases, classes, open, nextHandle) }

    constructor (maxLevel: Level, classes: map<nat, nat>)
      ensures this.maxLevel == maxLevel && State() == World(map[], classes, map[], 1)
    {
      this.maxLevel, leases, this.classes, open, nextHandle := maxLevel, map[], classes, map[], 1;
    }

    method RestoreLastLease(gameId: string, a: ReleaseAnswers) returns (ok: bool)
      requires gameId in leases
      modifies this
      ensures (State(), ok) == RestoreLast(old(State()), gameId, a)
    {
      var s := leases[gameId];
      if s.creation != 0 && a.creation != s.creation {
        open := open - {s.handle};
        leases := leases - {gameId};
        return true;
      }
      if a.class_ == 0 {
        open := open - {s.handle};
        leases := leases - {gameId};
        return true;
      }
      if a.class_ != s.target {
        open := open - {s.handle};
        leases := leases - {gameId};
        return true;
      }
      if !a.setOk {
        leases := leases[gameId := s.(count := 1)];
        return false;
      }
      classes := classes[s.pid := s.original];
      open := open - {s.handle};
      leases := leases - {gameId};
      return true;
    }

    method ReleaseBoost(gameId: string, pid: nat, a: ReleaseAnswers) returns (ok: bool)
      modifies this
      ensures (State(), ok) == Release(old(State()), gameId, pid, a)
    {
      if gameId !in leases { return true; }
      if leases[gameId].pid != pid { return false; }
      if leases[gameId].count > 1 {
        leases := leases[gameId := leases[gameId].(count := leases[gameId].count - 1)];
        return true;
      }
      ok := RestoreLastLease(gameId, a);
    }

    method AcquireBoost(gameId: string, pid: nat, expected: nat, level: Level, r: ReleaseAnswers, a: AcquireAnswers) returns (ok: bool)
      modifies this
      ensures (State(), ok) == Acquire(old(State()), maxLevel, gameId, pid, expected, level, r, a)
    {
      if level == NoLevel || Rank(level) > Rank(maxLevel) { return false; }
      if gameId in leases && leases[gameId].pid == pid {
        leases := leases[gameId := leases[gameId].(count := leases[gameId].count + 1)];
        return true;
      }
      if gameId in leases {
        var released := ReleaseBoost(gameId, leases[gameId].pid, r);
        if !released { return false; }
      }
      if !a.openOk { return false; }
      var handle := nextHandle;
      open, nextHandle := open[handle := pid], handle + 1;
      if expected != 0 && (a.creation == 0 || a.creation != expected) {
        open := open - {handle};
        return false;
      }
      if a.class_ == 0 {
        open := open - {handle};
        return false;
      }
      if !a.setOk {
        open := open - {handle};
        return false;
      }
      classes := classes[pid := LevelClass(level)];
      leases := leases[gameId := Lease(pid, if a.creation != 0 then a.creation else expected, handle, a.class_, LevelClass(level), level, 1)];
      return true;
    }

    /** Cleans up one lease, whether or not its class could be restored. */
    method ForceCleanLease(gameId: string, a: ReleaseAnswers)
      requires gameId in leases
      modifies this
      ensures leases == old(leases) - {gameId} && open == old(open) - {old(leases)[gameId].handle} && nextHandle == old(nextHandle)
      ensures var s := old(leases)[gameId];
              classes == if a.class_ != 0 && a.class_ == s.target && a.setOk then old(classes)[s.pid := s.original] else old(classes)
    {
      var s := leases[gameId];
      if a.class_ != 0 && a.class_ == s.target && a.setOk {
        classes := classes[s.pid := s.original];
      }
      open := open - {s.handle};
      leases := leases - {gameId};
    }

    /** Destruction leaves no lease behind, closes the handles of all leases and writes back what the answers allow. */
    method ReleaseAll(answers: map<string, ReleaseAnswers>)
      requires leases.Keys <= answers.Keys
      modifies this
      ensures leases == map[] && open == old(open) - Handles(old(leases))
      ensures AllWrittenBack(old(leases), answers, old(classes), classes)
    {
      ghost var gone: map<string, Lease> := map[];
      while leases.Keys != {}
        invariant leases.Keys <= answers.Keys && open == old(open) - Handles(gone)
        invariant Parted(old(leases), gone, leases) && AllWrittenBack(gone, answers, old(classes), classes)
        decreases leases.Keys
      {
        var gameId :| gameId in leases.Keys;
        ghost var was, rest, s := classes, leases, leases[gameId];
        ForceCleanLease(gameId, answers[gameId]);
        WriteOneBack(gone, answers, old(classes), was, classes, gameId, s);
        PartOne(old(leases), gone, rest, gameId);
        HandlesOfMore(gone, gameId, s);
        gone := gone[gameId := s];
      }
      assert gone == old(leases);
    }
  }

  /** The clean-up of a lease restores the original class. */
  predicate WritesBack(s: Lease, a: ReleaseAnswers) { a.class_ != 0 && a.class_ == s.target && a.setOk }

  /**
    A process among those cleaned up: in the original class of one of the leases that write back, or
    as before if none of its leases does.
   */
  ghost predicate WrittenBack(leases: map<string, Lease>, answers: map<string, ReleaseAnswers>, before: map<nat, nat>, after: map<nat, nat>, pid: nat) {
    if exists g :: g in leases && g in answers && leases[g].pid == pid && WritesBack(leases[g], answers[g])
    then pid in after && exists g :: g in leases && g in answers && leases[g].pid == pid && WritesBack(leases[g], answers[g]) && after[pid] == leases[g].original
    else (pid in after <==> pid in before) && (pid in before ==> after[pid] == before[pid])
  }

  ghost predicate AllWrittenBack(leases: map<string, Lease>, answers: map<string, ReleaseAnswers>, before: map<nat, nat>, after: map<nat, nat>) {
    forall pid: nat :: WrittenBack(leases, answers, before, after, pid)
  }

  /** Each lease is either gone or left. */
  ghost predicate Parted(all: map<string, Lease>, gone: map<string, Lease>, left: map<string, Lease>) {
    && gone.Keys + left.Keys == all.Keys && gone.Keys !! left.Keys
    && (forall g | g in gone :: gone[g] == all[g]) && (forall g | g in left :: left[g] == all[g])
  }

  lemma {:induction false} PartOne(all: map<string, Lease>, gone: map<string, Lease>, left: map<string, Lease>, gameId: string)
    requires Parted(all, gone, left) && gameId in left
    ensures Parted(all, gone[gameId := left[gameId]], left - {gameId})
  {
  }

  lemma {:induction false} WriteOneBack(gone: map<string, Lease>, answers: map<string, ReleaseAnswers>, before: map<nat, nat>, was: map<nat, nat>, now: map<nat, nat>,
                     gameId: string, s: Lease)
    requires AllWrittenBack(gone, answers, before, was) && gameId !in gone && gameId in answers
    requires now == if WritesBack(s, answers[gameId]) then was[s.pid := s.original] else was
    ensures AllWrittenBack(gone[gameId := s], answers, before, now)
  {
    var all := gone[gameId := s];
    forall pid: nat ensures WrittenBack(all, answers, before, now, pid) {
      assert WrittenBack(gone, answers, before, was, pid);
      if s.pid == pid && WritesBack(s, answers[gameId]) {
        assert gameId in all && all[gameId].pid == pid && now[pid] == all[gameId].original;
      } else if g :| g in gone && g in answers && gone[g].pid == pid && WritesBack(gone[g], answers[g]) {
        var k :| k in gone && k in answers && gone[k].pid == pid && WritesBack(gone[k], answers[k]) && was[pid] == gone[k].original;
        assert k in all && all[k] == gone[k] && now[pid] == was[pid];
      } else {
        assert forall g | g in all && g in answers :: !(all[g].pid == pid && WritesBack(all[g], answers[g]));
      }
    }
  }

  // ---------- handles ----------

  /** Exactly one open handle per lease, on the process of the lease, and every lease is held at least once. */
  ghost predicate HandlesMatch(w: World) {
    && (forall g | g in w.leases :: HasItsHandle(w, w.leases[g]))
    && DistinctHandles(w.leases)
    && (forall h | h in w.open :: h < w.nextHandle && HasItsLease(w, h))
  }

  ghost predicate HasItsHandle(w: World, l: Lease) { l.handle in w.open && w.open[l.handle] == l.pid && l.count >= 1 }

  ghost predicate DistinctHandles(leases: map<string, Lease>) {
    forall g, k | g in leases && k in leases && leases[g].handle == leases[k].handle :: g == k
  }

  ghost predicate HasItsLease(w: World, h: nat) { exists g :: g in w.leases && w.leases[g].handle == h }

  lemma {:induction false} DropKeepsHandles(w: World, gameId: string)
    requires HandlesMatch(w) && gameId in w.leases
    ensures HandlesMatch(Drop(w, gameId))
  {
    var d := Drop(w, gameId);
    forall g | g in d.leases ensures HasItsHandle(d, d.leases[g]) { assert HasItsHandle(w, w.leases[g]); }
    forall h | h in d.open ensures HasItsLease(d, h) {
      assert HasItsLease(w, h);
      var g :| g in w.leases && w.leases[g].handle == h;
      assert g in d.leases;
    }
  }

  /** Handles match as long as every lease keeps its handle and process. */
  lemma {:induction false} SameHandlesMatch(w: World, u: World)
    requires HandlesMatch(w) && u.leases.Keys == w.leases.Keys && u.open == w.open && u.nextHandle == w.nextHandle
    requires forall g | g in w.leases :: u.leases[g].handle == w.leases[g].handle && u.leases[g].pid == w.leases[g].pid && u.leases[g].count >= 1
    ensures HandlesMatch(u)
  {
    forall g | g in u.leases ensures HasItsHandle(u, u.leases[g]) { assert HasItsHandle(w, w.leases[g]); }
    forall h | h in u.open ensures HasItsLease(u, h) {
      assert HasItsLease(w, h);
      var g :| g in w.leases && w.leases[g].handle == h;
      assert g in u.leases && u.leases[g].handle == h;
    }
  }

  lemma {:induction false} RecountKeepsHandles(w: World, gameId: string, count: nat)
    requires HandlesMatch(w) && gameId in w.leases && count >= 1
    ensures HandlesMatch(w.(leases := w.leases[gameId := w.leases[gameId].(count := count)]))
  {
    var u := w.(leases := w.leases[gameId := w.leases[gameId].(count := count)]);
    forall g | g in w.leases ensures u.leases[g].handle == w.leases[g].handle && u.leases[g].pid == w.leases[g].pid && u.leases[g].count >= 1 {
      assert HasItsHandle(w, w.leases[g]);
    }
    SameHandlesMatch(w, u);
  }

  /** Releasing never leaks a handle and never closes one twice, whatever the system answers. */
  lemma {:induction false} ReleaseKeepsHandles(w: World, gameId: string, pid: nat, a: ReleaseAnswers)
    requires HandlesMatch(w)
    ensures HandlesMatch(Release(w, gameId, pid, a).0)
  {
    if gameId in w.leases {
      var s := w.leases[gameId];
      DropKeepsHandles(w, gameId);
      DropKeepsHandles(SetClass(w, s.pid, s.original), gameId);
      RecountKeepsHandles(w, gameId, 1);
      if s.count > 1 { RecountKeepsHandles(w, gameId, s.count - 1); }
    }
  }

  /** A lease on a handle never used before. */
  lemma {:induction false} NewLeaseKeepsHandles(w: World, u: World, gameId: string, lease: Lease)
    requires HandlesMatch(w) && gameId !in w.leases && lease.handle == w.nextHandle && lease.count >= 1
    requires u.leases == w.leases[gameId := lease] && u.open == w.open[lease.handle := lease.pid] && u.nextHandle == w.nextHandle + 1
    ensures HandlesMatch(u)
  {
    forall g | g in w.leases ensures u.leases[g] == w.leases[g] && HasItsHandle(u, w.leases[g]) && w.leases[g].handle != w.nextHandle {
      assert HasItsHandle(w, w.leases[g]);
    }
    forall h | h in u.open ensures HasItsLease(u, h) {
      if h == w.nextHandle {
        assert gameId in u.leases && u.leases[gameId].handle == h;
      } else {
        assert HasItsLease(w, h);
        var g :| g in w.leases && w.leases[g].handle == h;
        assert g in u.leases && u.leases[g] == w.leases[g];
      }
    }
  }

  lemma {:induction false} FreshKeepsHandles(w: World, gameId: string, pid: nat, expected: nat, level: Level, a: AcquireAnswers)
    requires HandlesMatch(w) && gameId !in w.leases && level != NoLevel
    ensures HandlesMatch(AcquireFresh(w, gameId, pid, expected, level, a).0)
  {
    var (u, ok) := AcquireFresh(w, gameId, pid, expected, level, a);
    if ok {
      NewLeaseKeepsHandles(w, u, gameId, u.leases[gameId]);
    } else if a.openOk {
      assert w.nextHandle !in w.open;
      assert u.open == w.open;
    }
  }

  /** The restart of a game held more than once: the old lease is only counted down, then overwritten. */
  predicate OverwritesLease(w: World, maxLevel: Level, gameId: string, pid: nat, expected: nat, level: Level, a: AcquireAnswers) {
    && level != NoLevel && Rank(level) <= Rank(maxLevel)
    && gameId in w.leases && w.leases[gameId].pid != pid && w.leases[gameId].count > 1
    && a.openOk && !(expected != 0 && (a.creation == 0 || a.creation != expected)) && a.class_ != 0 && a.setOk
  }

  lemma {:induction false} OverwritingLeaks(w: World, maxLevel: Level, gameId: string, pid: nat, expected: nat, level: Level, r: ReleaseAnswers, a: AcquireAnswers)
    requires HandlesMatch(w) && OverwritesLease(w, maxLevel, gameId, pid, expected, level, a)
    ensures !HandlesMatch(Acquire(w, maxLevel, gameId, pid, expected, level, r, a).0)
  {
    var u := Acquire(w, maxLevel, gameId, pid, expected, level, r, a).0;
    var h := w.leases[gameId].handle;
    assert HasItsHandle(w, w.leases[gameId]) && h in u.open && h != w.nextHandle;
    forall g | g in u.leases ensures u.leases[g].handle != h {
      if g != gameId { assert u.leases[g] == w.leases[g]; }
    }
    assert !HasItsLease(u, h);
  }

  /** Acquiring keeps one handle per lease if and only if it does not overwrite a lease held more than once. */
  lemma {:induction false} AcquireKeepsHandlesIff(w: World, maxLevel: Level, gameId: string, pid: nat, expected: nat, level: Level, r: ReleaseAnswers, a: AcquireAnswers)
    requires HandlesMatch(w)
    ensures HandlesMatch(Acquire(w, maxLevel, gameId, pid, expected, level, r, a).0)
       <==> !OverwritesLease(w, maxLevel, gameId, pid, expected, level, a)
  {
    if OverwritesLease(w, maxLevel, gameId, pid, expected, level, a) {
      OverwritingLeaks(w, maxLevel, gameId, pid, expected, level, r, a);
    } else if level != NoLevel && Rank(level) <= Rank(maxLevel) {
      if gameId !in w.leases {
        FreshKeepsHandles(w, gameId, pid, expected, level, a);
      } else if w.leases[gameId].pid == pid {
        RecountKeepsHandles(w, gameId, w.leases[gameId].count + 1);
      } else {
        ReacquireKeepsHandles(w, maxLevel, gameId, pid, expected, level, r, a);
      }
    }
  }

  /** A fresh acquisition that fails leaves leases, classes and handles as they were. */
  lemma {:induction false} FailedFreshChangesNothing(w: World, gameId: string, pid: nat, expected: nat, level: Level, a: AcquireAnswers)
    requires HandlesMatch(w) && level != NoLevel && !AcquireFresh(w, gameId, pid, expected, level, a).1
    ensures var u := AcquireFresh(w, gameId, pid, expected, level, a).0;
            HandlesMatch(u) && u.leases == w.leases && u.classes == w.classes && u.open == w.open
  {
    var u := AcquireFresh(w, gameId, pid, expected, level, a).0;
    assert w.nextHandle !in w.open;
    assert u.open == w.open;
  }

  lemma {:induction false} ReacquireKeepsHandles(w: World, maxLevel: Level, gameId: string, pid: nat, expected: nat, level: Level, r: ReleaseAnswers, a: AcquireAnswers)
    requires HandlesMatch(w) && level != NoLevel && gameId in w.leases && w.leases[gameId].pid != pid
    requires Rank(level) <= Rank(maxLevel) && !OverwritesLease(w, maxLevel, gameId, pid, expected, level, a)
    ensures HandlesMatch(Acquire(w, maxLevel, gameId, pid, expected, level, r, a).0)
  {
    var (w1, released) := Release(w, gameId, w.leases[gameId].pid, r);
    assert Acquire(w, maxLevel, gameId, pid, expected, level, r, a) ==
      if released then AcquireFresh(w1, gameId, pid, expected, level, a) else (w1, false);
    ReleaseKeepsHandles(w, gameId, w.leases[gameId].pid, r);
    if released {
      if w.leases[gameId].count > 1 {
        FailedFreshChangesNothing(w1, gameId, pid, expected, level, a);
      } else {
        FreshKeepsHandles(w1, gameId, pid, expected, level, a);
      }
    }
  }

  // ---------- whoever comes and goes, the original class comes back ----------

  /** What never changes in a run without outside interference: base classes and creation times of the processes. */
  datatype Processes = Processes(base: map<nat, nat>, times: map<nat, nat>)

  ghost predicate Known(p: Processes, pid: nat) { pid in p.base && pid in p.times && p.base[pid] != 0 }

  /** The lease holds the class the process had before anyone boosted it. */
  predicate HoldsOriginal(p: Processes, t: nat, l: Lease) { l.pid in p.base && l.original == p.base[l.pid] && l.original != t }

  ghost predicate LeaseIsFine(p: Processes, t: nat, w: World, l: Lease) {
    && Known(p, l.pid) && l.pid in w.classes && l.creation == p.times[l.pid]
    && l.target == t && (l.original == t || l.original == p.base[l.pid])
    && (HoldsOriginal(p, t, l) ==> w.classes[l.pid] == t)
  }

  /** A process is at its base class, or boosted with some lease holding its base class. */
  ghost predicate PidIsTidy(p: Processes, t: nat, w: World, pid: nat) {
    pid in w.classes && pid in p.base && (w.classes[pid] == p.base[pid]
      || (w.classes[pid] == t && exists g :: g in w.leases && w.leases[g].pid == pid && HoldsOriginal(p, t, w.leases[g])))
  }

  ghost predicate LeasesAreFine(p: Processes, t: nat, w: World) {
    forall g | g in w.leases :: LeaseIsFine(p, t, w, w.leases[g])
  }

  ghost predicate OneHolder(p: Processes, t: nat, w: World) {
    forall g, k | g in w.leases && k in w.leases && w.leases[g].pid == w.leases[k].pid
          && HoldsOriginal(p, t, w.leases[g]) && HoldsOriginal(p, t, w.leases[k]) :: g == k
  }

  /**
    All leases boost to the class t. A process is at t or at its base class; when it is away from
    its base class exactly one lease holds the base class as its original, otherwise none does.
   */
  ghost predicate Tidy(p: Processes, t: nat, w: World) {
    && t != 0 && w.classes.Keys == p.base.Keys
    && (forall pid | pid in w.classes :: PidIsTidy(p, t, w, pid))
    && LeasesAreFine(p, t, w) && OneHolder(p, t, w)
  }

  ghost predicate TruthfulRelease(p: Processes, w: World, pid: nat, a: ReleaseAnswers) {
    Known(p, pid) && pid in w.classes && a.creation == p.times[pid] && a.class_ == w.classes[pid]
  }

  ghost predicate TruthfulAcquire(p: Processes, w: World, pid: nat, a: AcquireAnswers) {
    Known(p, pid) && pid in w.classes && a.creation == p.times[pid] && a.class_ == w.classes[pid]
  }

  /** A process stays tidy when its class and the leases that hold its base class stay. */
  lemma {:induction false} StaysTidy(p: Processes, t: nat, w: World, u: World, pid: nat)
    requires PidIsTidy(p, t, w, pid) && pid in u.classes && u.classes[pid] == w.classes[pid]
    requires forall g | g in w.leases && w.leases[g].pid == pid && HoldsOriginal(p, t, w.leases[g]) ::
               g in u.leases && u.leases[g].pid == pid && HoldsOriginal(p, t, u.leases[g])
    ensures PidIsTidy(p, t, u, pid)
  {
    if w.classes[pid] != p.base[pid] {
      var g :| g in w.leases && w.leases[g].pid == pid && HoldsOriginal(p, t, w.leases[g]);
      assert g in u.leases && u.leases[g].pid == pid && HoldsOriginal(p, t, u.leases[g]);
    }
  }

  lemma {:induction false} RecountKeepsTidy(p: Processes, t: nat, w: World, gameId: string, count: nat)
    requires Tidy(p, t, w) && gameId in w.leases
    ensures Tidy(p, t, w.(leases := w.leases[gameId := w.leases[gameId].(count := count)]))
  {
    var u := w.(leases := w.leases[gameId := w.leases[gameId].(count := count)]);
    forall pid | pid in u.classes ensures PidIsTidy(p, t, u, pid) { StaysTidy(p, t, w, u, pid); }
  }

  /** Dropping a lease that does not hold the base class, or one whose process is at its base class. */
  lemma {:induction false} DropKeepsTidy(p: Processes, t: nat, w: World, gameId: string)
    requires Tidy(p, t, w) && gameId in w.leases && !HoldsOriginal(p, t, w.leases[gameId])
    ensures Tidy(p, t, Drop(w, gameId))
  {
    var u := Drop(w, gameId);
    forall pid | pid in u.classes ensures PidIsTidy(p, t, u, pid) { StaysTidy(p, t, w, u, pid); }
  }

  /** Dropping the holder of the base class together with writing that class back. */
  lemma {:induction false} RestoringDropKeepsTidy(p: Processes, t: nat, w: World, gameId: string)
    requires Tidy(p, t, w) && gameId in w.leases && HoldsOriginal(p, t, w.leases[gameId])
    ensures Tidy(p, t, Drop(SetClass(w, w.leases[gameId].pid, w.leases[gameId].original), gameId))
  {
    var s := w.leases[gameId];
    assert LeaseIsFine(p, t, w, s);
    var u := Drop(SetClass(w, s.pid, s.original), gameId);
    forall pid | pid in u.classes ensures PidIsTidy(p, t, u, pid) {
      if pid != s.pid { StaysTidy(p, t, w, u, pid); }
    }
    forall g | g in u.leases ensures LeaseIsFine(p, t, u, u.leases[g]) {
      assert LeaseIsFine(p, t, w, w.leases[g]) && g != gameId;
    }
  }

  /** The last release, told the truth about the process: it restores, or leaves what is already restored. */
  lemma {:induction false} RestoreKeepsTidy(p: Processes, t: nat, w: World, gameId: string, a: ReleaseAnswers)
    requires Tidy(p, t, w) && gameId in w.leases && TruthfulRelease(p, w, w.leases[gameId].pid, a)
    ensures Tidy(p, t, RestoreLast(w, gameId, a).0)
  {
    var s := w.leases[gameId];
    assert LeaseIsFine(p, t, w, s) && PidIsTidy(p, t, w, s.pid);
    if a.class_ != s.target {
      DropKeepsTidy(p, t, w, gameId);
    } else if !a.setOk {
      RecountKeepsTidy(p, t, w, gameId, 1);
    } else if HoldsOriginal(p, t, s) {
      RestoringDropKeepsTidy(p, t, w, gameId);
    } else {
      assert SetClass(w, s.pid, s.original) == w;
      DropKeepsTidy(p, t, w, gameId);
    }
  }

  lemma {:induction false} ReleaseKeepsTidy(p: Processes, t: nat, w: World, gameId: string, pid: nat, a: ReleaseAnswers)
    requires Tidy(p, t, w) && TruthfulRelease(p, w, pid, a)
    ensures Tidy(p, t, Release(w, gameId, pid, a).0)
  {
    if gameId in w.leases && w.leases[gameId].pid == pid {
      if w.leases[gameId].count > 1 {
        RecountKeepsTidy(p, t, w, gameId, w.leases[gameId].count - 1);
      } else {
        RestoreKeepsTidy(p, t, w, gameId, a);
      }
    }
  }

  lemma {:induction false} FreshKeepsTidy(p: Processes, t: nat, w: World, gameId: string, pid: nat, expected: nat, level: Level, a: AcquireAnswers)
    requires Tidy(p, t, w) && gameId !in w.leases && level != NoLevel && LevelClass(level) == t && TruthfulAcquire(p, w, pid, a)
    ensures Tidy(p, t, AcquireFresh(w, gameId, pid, expected, level, a).0)
  {
    var (u, ok) := AcquireFresh(w, gameId, pid, expected, level, a);
    if ok {
      var l := u.leases[gameId];
      assert u == World(w.leases[gameId := l], w.classes[pid := t], u.open, u.nextHandle);
      AddedLeaseKeepsTidy(p, t, w, gameId, l, u);
    } else {
      assert u.leases == w.leases && u.classes == w.classes;
      forall q | q in u.classes ensures PidIsTidy(p, t, u, q) { StaysTidy(p, t, w, u, q); }
    }
  }

  lemma {:induction false} AddedLeaseKeepsPids(p: Processes, t: nat, w: World, gameId: string, l: Lease, u: World)
    requires Tidy(p, t, w) && gameId !in w.leases && Known(p, l.pid) && l.pid in w.classes
    requires l.original == w.classes[l.pid] && u.leases == w.leases[gameId := l] && u.classes == w.classes[l.pid := t]
    ensures forall q | q in u.classes :: PidIsTidy(p, t, u, q)
  {
    assert PidIsTidy(p, t, w, l.pid);
    forall q | q in u.classes ensures PidIsTidy(p, t, u, q) {
      if q != l.pid || w.classes[q] == t {
        StaysTidy(p, t, w, u, q);
      } else {
        assert gameId in u.leases && u.leases[gameId].pid == q && HoldsOriginal(p, t, u.leases[gameId]);
      }
    }
  }

  /** A new lease that saved the present class and set the boosted one. */
  lemma {:induction false} AddedLeaseKeepsTidy(p: Processes, t: nat, w: World, gameId: string, l: Lease, u: World)
    requires Tidy(p, t, w) && gameId !in w.leases && Known(p, l.pid) && l.pid in w.classes
    requires l.original == w.classes[l.pid] && l.target == t && l.creation == p.times[l.pid]
    requires u.leases == w.leases[gameId := l] && u.classes == w.classes[l.pid := t]
    ensures Tidy(p, t, u)
  {
    AddedLeaseKeepsPids(p, t, w, gameId, l, u);
    assert PidIsTidy(p, t, w, l.pid);
    forall g | g in u.leases ensures LeaseIsFine(p, t, u, u.leases[g]) {
      if g != gameId { assert LeaseIsFine(p, t, w, w.leases[g]); }
    }
    forall g | g in w.leases && w.leases[g].pid == l.pid && HoldsOriginal(p, t, l) ensures !HoldsOriginal(p, t, w.leases[g]) {
      assert LeaseIsFine(p, t, w, w.leases[g]);
    }
  }

  /** An acquisition or a release by any game on any process. */
  datatype Event =
    | Acquired(gameId: string, pid: nat, expected: nat, release: ReleaseAnswers, answers: AcquireAnswers)
    | Released(gameId: string, pid: nat, release: ReleaseAnswers)

  /** The highest level allowed, and the level each game asks for. */
  datatype Rules = Rules(maxLevel: Level, levels: map<string, Level>)

  /** A level that is not refused. */
  predicate Allowed(r: Rules, level: Level) { level != NoLevel && Rank(level) <= Rank(r.maxLevel) }

  function LevelOf(r: Rules, gameId: string): Level { if gameId in r.levels then r.levels[gameId] else NoLevel }

  function Step(rules: Rules, w: World, e: Event): World {
    match e
    case Acquired(g, pid, expected, r, a) => Acquire(w, rules.maxLevel, g, pid, expected, LevelOf(rules, g), r, a).0
    case Released(g, pid, r) => Release(w, g, pid, r).0
  }

  function Run(rules: Rules, w: World, es: seq<Event>): World
    decreases |es|
  {
    if es == [] then w else Run(rules, Step(rules, w, es[0]), es[1..])
  }

  /** The system tells the truth, and no game changes its process while it holds more than one lease. */
  ghost predicate Honest(p: Processes, w: World, e: Event) {
    match e
    case Released(g, pid, r) => TruthfulRelease(p, w, pid, r)
    case Acquired(g, pid, expected, r, a) =>
      if g in w.leases && w.leases[g].pid != pid then
        && w.leases[g].count <= 1 && TruthfulRelease(p, w, w.leases[g].pid, r)
        && TruthfulAcquire(p, Release(w, g, w.leases[g].pid, r).0, pid, a)
      else TruthfulAcquire(p, w, pid, a)
  }

  ghost predicate HonestRun(p: Processes, rules: Rules, w: World, es: seq<Event>)
    decreases |es|
  {
    es != [] ==> Honest(p, w, es[0]) && HonestRun(p, rules, Step(rules, w, es[0]), es[1..])
  }

  lemma {:induction false} MoveKeepsTidy(p: Processes, maxLevel: Level, level: Level, w: World, e: Event)
    requires level != NoLevel && Rank(level) <= Rank(maxLevel) && Tidy(p, LevelClass(level), w) && e.Acquired?
    requires e.gameId in w.leases && w.leases[e.gameId].pid != e.pid && w.leases[e.gameId].count <= 1
    requires TruthfulRelease(p, w, w.leases[e.gameId].pid, e.release)
    requires TruthfulAcquire(p, Release(w, e.gameId, w.leases[e.gameId].pid, e.release).0, e.pid, e.answers)
    ensures Tidy(p, LevelClass(level), Acquire(w, maxLevel, e.gameId, e.pid, e.expected, level, e.release, e.answers).0)
  {
    var t, g := LevelClass(level), e.gameId;
    var (w1, released) := Release(w, g, w.leases[g].pid, e.release);
    assert Acquire(w, maxLevel, g, e.pid, e.expected, level, e.release, e.answers) ==
      if released then AcquireFresh(w1, g, e.pid, e.expected, level, e.answers) else (w1, false);
    ReleaseKeepsTidy(p, t, w, g, w.leases[g].pid, e.release);
    if released {
      ReleasedLastIsGone(w, g, e.release);
      FreshKeepsTidy(p, t, w1, g, e.pid, e.expected, level, e.answers);
    }
  }

  lemma {:induction false} AcquireKeepsTidy(p: Processes, maxLevel: Level, level: Level, w: World, e: Event)
    requires level != NoLevel && Rank(level) <= Rank(maxLevel) && Tidy(p, LevelClass(level), w) && Honest(p, w, e) && e.Acquired?
    ensures Tidy(p, LevelClass(level), Acquire(w, maxLevel, e.gameId, e.pid, e.expected, level, e.release, e.answers).0)
  {
    var t, g := LevelClass(level), e.gameId;
    if g !in w.leases {
      FreshKeepsTidy(p, t, w, g, e.pid, e.expected, level, e.answers);
    } else if w.leases[g].pid == e.pid {
      RecountKeepsTidy(p, t, w, g, w.leases[g].count + 1);
    } else {
      MoveKeepsTidy(p, maxLevel, level, w, e);
    }
  }

  lemma {:induction false} ReleasedLastIsGone(w: World, gameId: string, a: ReleaseAnswers)
    requires gameId in w.leases && w.leases[gameId].count <= 1 && Release(w, gameId, w.leases[gameId].pid, a).1
    ensures gameId !in Release(w, gameId, w.leases[gameId].pid, a).0.leases
  {
  }

  /** Every game whose level is not refused asks for this one. */
  ghost predicate AllAt(rules: Rules, level: Level) {
    level != NoLevel && forall g | g in rules.levels && Allowed(rules, rules.levels[g]) :: rules.levels[g] == level
  }

  lemma {:induction false} StepKeepsTidy(p: Processes, rules: Rules, level: Level, w: World, e: Event)
    requires AllAt(rules, level) && Tidy(p, LevelClass(level), w) && Honest(p, w, e)
    ensures Tidy(p, LevelClass(level), Step(rules, w, e))
  {
    match e
    case Released(g, pid, r) => ReleaseKeepsTidy(p, LevelClass(level), w, g, pid, r);
    case Acquired(g, _, _, _, _) =>
      if Allowed(rules, LevelOf(rules, g)) { AcquireKeepsTidy(p, rules.maxLevel, level, w, e); }
  }

  lemma {:induction false} RunKeepsTidy(p: Processes, rules: Rules, level: Level, w: World, es: seq<Event>)
    requires AllAt(rules, level) && Tidy(p, LevelClass(level), w) && HonestRun(p, rules, w, es)
    ensures Tidy(p, LevelClass(level), Run(rules, w, es))
    decreases |es|
  {
    if es != [] {
      StepKeepsTidy(p, rules, level, w, es[0]);
      RunKeepsTidy(p, rules, level, Step(rules, w, es[0]), es[1..]);
    }
  }

  /** No leases yet, every process at its base class. */
  function Start(p: Processes): World { World(map[], p.base, map[], 1) }

  /** A process that no lease refers to has its pre-boost class. */
  ghost predicate RestoredIn(p: Processes, w: World) {
    forall pid | pid in p.base && (forall g | g in w.leases :: w.leases[g].pid != pid) :: pid in w.classes && w.classes[pid] == p.base[pid]
  }

  /** No two games ask for different levels that are not refused. */
  ghost predicate OneLevel(rules: Rules) {
    forall g, k | g in rules.levels && k in rules.levels && Allowed(rules, rules.levels[g]) && Allowed(rules, rules.levels[k]) ::
      rules.levels[g] == rules.levels[k]
  }

  /**
    For any interleaving of acquisitions and releases by any games at one level, open and set
    failures included: a process that no lease refers to any more has its pre-boost class, in
    whatever order the leases went.
   */
  lemma {:induction false} UnleasedProcessesAreRestored(p: Processes, rules: Rules, es: seq<Event>)
    requires OneLevel(rules) && HonestRun(p, rules, Start(p), es)
    ensures RestoredIn(p, Run(rules, Start(p), es))
  {
    var level := High;
    if g :| g in rules.levels && Allowed(rules, rules.levels[g]) { level := rules.levels[g]; }
    assert AllAt(rules, level);
    RunKeepsTidy(p, rules, level, Start(p), es);
  }

  /** Two games on one process, the first to come being the first to go; every answer is the truth. */
  function CrossedRun(p: Processes, rules: Rules, first: string, second: string, pid: nat): seq<Event>
    requires pid in p.base && pid in p.times && LevelOf(rules, first) != NoLevel && LevelOf(rules, second) != NoLevel
  {
    var time, one, two := p.times[pid], LevelClass(LevelOf(rules, first)), LevelClass(LevelOf(rules, second));
    [Acquired(first, pid, 0, ReleaseAnswers(0, 0, true), AcquireAnswers(true, time, p.base[pid], true)),
     Acquired(second, pid, 0, ReleaseAnswers(0, 0, true), AcquireAnswers(true, time, one, true)),
     Released(first, pid, ReleaseAnswers(time, two, true)),
     Released(second, pid, ReleaseAnswers(time, two, true))]
  }

  lemma {:induction false} RunCons(p: Processes, rules: Rules, w: World, e: Event, es: seq<Event>)
    ensures Run(rules, w, [e] + es) == Run(rules, Step(rules, w, e), es)
    ensures HonestRun(p, rules, w, [e] + es) <==> Honest(p, w, e) && HonestRun(p, rules, Step(rules, w, e), es)
  {
    assert ([e] + es)[1..] == es;
  }

  /** The first two steps of the crossed run: both games hold a lease, the second on top of the first. */
  lemma {:induction false} BothAcquire(p: Processes, rules: Rules, first: string, second: string, pid: nat) returns (w1: World, w2: World)
    requires Known(p, pid) && first != second && Allowed(rules, LevelOf(rules, first)) && Allowed(rules, LevelOf(rules, second))
    ensures var es := CrossedRun(p, rules, first, second, pid);
            var one, two := LevelClass(LevelOf(rules, first)), LevelClass(LevelOf(rules, second));
            && w1 == Step(rules, Start(p), es[0]) && w2 == Step(rules, w1, es[1])
            && Honest(p, Start(p), es[0]) && Honest(p, w1, es[1])
            && w2.classes == p.base[pid := two] && w2.leases.Keys == {first, second}
            && w2.leases[first] == Lease(pid, p.times[pid], 1, p.base[pid], one, LevelOf(rules, first), 1)
            && w2.leases[second] == Lease(pid, p.times[pid], 2, one, two, LevelOf(rules, second), 1)
  {
    var es := CrossedRun(p, rules, first, second, pid);
    w1 := Step(rules, Start(p), es[0]);
    assert w1.classes == p.base[pid := LevelClass(LevelOf(rules, first))] && w1.leases.Keys == {first};
    w2 := Step(rules, w1, es[1]);
    assert w2.classes == p.base[pid := LevelClass(LevelOf(rules, second))];
  }

  /** The four worlds of a run, put together. */
  lemma {:induction false} RunOfFour(p: Processes, rules: Rules, es: seq<Event>, w0: World, w1: World, w2: World, w3: World)
    requires |es| == 4 && w1 == Step(rules, w0, es[0]) && w2 == Step(rules, w1, es[1]) && w3 == Step(rules, w2, es[2])
    requires Honest(p, w0, es[0]) && Honest(p, w1, es[1]) && Honest(p, w2, es[2]) && Honest(p, w3, es[3])
    ensures HonestRun(p, rules, w0, es) && Run(rules, w0, es) == Step(rules, w3, es[3])
  {
    RunCons(p, rules, w3, es[3], []);
    RunCons(p, rules, w2, es[2], [es[3]]);
    RunCons(p, rules, w1, es[1], [es[2], es[3]]);
    RunCons(p, rules, w0, es[0], [es[1], es[2], es[3]]);
    assert es == [es[0]] + [es[1], es[2], es[3]];
  }

  /**
    With two levels on one process the order of release matters. When the first game lets go the class
    is not its own any more and stays; the second then writes back the first one's boost.
   */
  lemma {:induction false} TwoLevelsLeaveABoostBehind(p: Processes, rules: Rules, first: string, second: string, pid: nat)
    requires Known(p, pid) && first != second && Allowed(rules, LevelOf(rules, first)) && Allowed(rules, LevelOf(rules, second))
    requires LevelOf(rules, first) != LevelOf(rules, second) && p.base[pid] != LevelClass(LevelOf(rules, first))
    ensures HonestRun(p, rules, Start(p), CrossedRun(p, rules, first, second, pid))
    ensures var w := Run(rules, Start(p), CrossedRun(p, rules, first, second, pid));
            w.leases == map[] && w.classes == p.base[pid := LevelClass(LevelOf(rules, first))] && !RestoredIn(p, w)
  {
    var es := CrossedRun(p, rules, first, second, pid);
    var w1, w2 := BothAcquire(p, rules, first, second, pid);
    var w3 := Step(rules, w2, es[2]);
    assert w3.classes == w2.classes && w3.leases == map[second := w2.leases[second]];
    var w4 := Step(rules, w3, es[3]);
    assert w4.classes == p.base[pid := LevelClass(LevelOf(rules, first))] && w4.leases == map[];
    RunOfFour(p, rules, es, Start(p), w1, w2, w3);
  }

  /** Every honest run leaves every process that is no longer leased at its base class. */
  ghost predicate AlwaysRestores(p: Processes, rules: Rules) {
    forall es | HonestRun(p, rules, Start(p), es) :: RestoredIn(p, Run(rules, Start(p), es))
  }

  /** Restoring is a matter of the levels alone: as soon as some process can be boosted, it takes one level for all games. */
  lemma {:induction false} AlwaysRestoresIffOneLevel(p: Processes, rules: Rules)
    ensures AlwaysRestores(p, rules) <==> OneLevel(rules) || forall pid :: !Known(p, pid)
  {
    if OneLevel(rules) {
      forall es | HonestRun(p, rules, Start(p), es) ensures RestoredIn(p, Run(rules, Start(p), es)) {
        UnleasedProcessesAreRestored(p, rules, es);
      }
    } else if forall pid :: !Known(p, pid) {
      forall es | HonestRun(p, rules, Start(p), es) ensures RestoredIn(p, Run(rules, Start(p), es)) {
        assert es != [] ==> Honest(p, Start(p), es[0]);
        assert es == [];
      }
    } else {
      var pid :| Known(p, pid);
      var g, k :| g in rules.levels && k in rules.levels && Allowed(rules, rules.levels[g]) && Allowed(rules, rules.levels[k])
        && rules.levels[g] != rules.levels[k];
      if p.base[pid] != LevelClass(rules.levels[g]) {
        TwoLevelsLeaveABoostBehind(p, rules, g, k, pid);
      } else {
        TwoLevelsLeaveABoostBehind(p, rules, k, g, pid);
      }
    }
  }

  // ---------- while a lease is held ----------

  /** Every leased process is in the class its lease asked for. */
  ghost predicate LeasedAreBoosted(w: World) {
    forall g | g in w.leases :: w.leases[g].pid in w.classes && w.classes[w.leases[g].pid] == w.leases[g].target
  }

  /** The last release of a lease that restores another class while a second lease on the process remains. */
  predicate RestoresUnderALease(w: World, gameId: string, pid: nat, a: ReleaseAnswers) {
    && gameId in w.leases
    && var s := w.leases[gameId];
    && s.pid == pid && s.count <= 1 && (s.creation == 0 || a.creation == s.creation)
    && a.class_ != 0 && a.class_ == s.target && a.setOk && s.original != s.target
    && exists k :: k in w.leases && k != gameId && w.leases[k].pid == pid
  }

  /** A release takes the boost away from a process that is still leased exactly in that case. */
  lemma {:induction false} ReleaseKeepsLeasedBoostedIff(w: World, gameId: string, pid: nat, a: ReleaseAnswers)
    requires LeasedAreBoosted(w)
    ensures LeasedAreBoosted(Release(w, gameId, pid, a).0) <==> !RestoresUnderALease(w, gameId, pid, a)
  {
    var u := Release(w, gameId, pid, a).0;
    if RestoresUnderALease(w, gameId, pid, a) {
      var k :| k in w.leases && k != gameId && w.leases[k].pid == pid;
      assert k in u.leases && u.leases[k] == w.leases[k] && u.classes[pid] == w.leases[gameId].original;
    } else {
      forall g | g in u.leases ensures u.leases[g].pid in u.classes && u.classes[u.leases[g].pid] == u.leases[g].target {
        assert g in w.leases && u.leases[g].pid == w.leases[g].pid && u.leases[g].target == w.leases[g].target;
      }
    }
  }

  /** The case happens at one level: two games on one process, the first to come lets go and the second stays leased without its boost. */
  lemma {:induction false} FirstHolderTakesTheBoost(p: Processes, level: Level, first: string, second: string, pid: nat)
    requires Known(p, pid) && first != second && level != NoLevel && p.base[pid] != LevelClass(level)
    ensures var rules := Rules(level, map[first := level, second := level]);
            var es := CrossedRun(p, rules, first, second, pid)[..3];
            var w := Run(rules, Start(p), es);
            && HonestRun(p, rules, Start(p), es)
            && w.leases.Keys == {second} && w.leases[second].pid == pid && pid in w.classes && w.classes[pid] == p.base[pid]
  {
    var rules := Rules(level, map[first := level, second := level]);
    var es := CrossedRun(p, rules, first, second, pid);
    var w1, w2 := BothAcquire(p, rules, first, second, pid);
    var w3 := Step(rules, w2, es[2]);
    assert w3.classes[pid] == p.base[pid] && w3.leases == map[second := w2.leases[second]];
    RunCons(p, rules, w2, es[2], []);
    RunCons(p, rules, w1, es[1], [es[2]]);
    RunCons(p, rules, Start(p), es[0], [es[1], es[2]]);
    assert es[..3] == [es[0]] + [es[1], es[2]];
  }

  /** Whatever happens outside: a release writes a class only back to the original, and only over the boosted class. */
  lemma {:induction false} ReleaseRespectsOutsideChanges(w: World, gameId: string, pid: nat, a: ReleaseAnswers, q: nat)
    requires q in w.classes && Release(w, gameId, pid, a).0.classes[q] != w.classes[q]
    ensures gameId in w.leases && q == pid == w.leases[gameId].pid && a.class_ == w.leases[gameId].target && a.setOk
    ensures w.leases[gameId].count <= 1 && Release(w, gameId, pid, a).0.classes[q] == w.leases[gameId].original
  {
  }

  // ---------- releasing everything ----------

  ghost function Handles(leases: map<string, Lease>): set<nat> { set g | g in leases :: leases[g].handle }

  lemma {:induction false} HandlesOfMore(leases: map<string, Lease>, gameId: string, l: Lease)
    requires gameId !in leases
    ensures Handles(leases[gameId := l]) == Handles(leases) + {l.handle}
  {
    var more := leases[gameId := l];
    assert more[gameId] == l;
    forall h | h in Handles(leases) ensures h in Handles(more) {
      var g :| g in leases && leases[g].handle == h;
      assert g in more && more[g] == leases[g];
    }
  }

  /** Where nothing has leaked, closing the handles of all leases closes everything. */
  lemma {:induction false} HandlesCoverOpen(w: World)
    requires HandlesMatch(w)
    ensures w.open - Handles(w.leases) == map[]
  {
    forall h | h in w.open ensures h in Handles(w.leases) {
      assert HasItsLease(w, h);
      var g :| g in w.leases && w.leases[g].handle == h;
    }
  }

  /** The handle of an overwritten lease stays open even then. */
  lemma {:induction false} LeakSurvivesReleaseAll(w: World, maxLevel: Level, gameId: string, pid: nat, expected: nat, level: Level, r: ReleaseAnswers, a: AcquireAnswers)
    requires HandlesMatch(w) && OverwritesLease(w, maxLevel, gameId, pid, expected, level, a)
    ensures var u := Acquire(w, maxLevel, gameId, pid, expected, level, r, a).0;
            w.leases[gameId].handle in (u.open - Handles(u.leases))
  {
    var u := Acquire(w, maxLevel, gameId, pid, expected, level, r, a).0;
    var h := w.leases[gameId].handle;
    assert HasItsHandle(w, w.leases[gameId]) && h in u.open && h != w.nextHandle;
    forall g | g in u.leases ensures u.leases[g].handle != h {
      if g != gameId { assert u.leases[g] == w.leases[g]; }
    }
  }
}
