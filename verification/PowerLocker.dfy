/**
  Reference-counted power requests (source/power/power_locker.cpp): the first acquisition creates
  and sets a request, the last release clears and closes it, and a failed clear keeps the request.
 */
module PowerLocker {

  datatype LockType = ExecutionRequired | DisplayRequired

  datatype Lock = Lock(count: nat, handle: nat)

  const UNLOCKED := Lock(0, 0)

  /** One lock per type, and the handles open in the system. */
  datatype Locks = Locks(execution: Lock, display: Lock, open: set<nat>, nextHandle: nat)

  datatype LockAnswers = LockAnswers(createOk: bool, setOk: bool, clearOk: bool)

  function Get(l: Locks, t: LockType): Lock { if t == ExecutionRequired then l.execution else l.display }

  function Put(l: Locks, t: LockType, k: Lock): Locks {
    if t == ExecutionRequired then l.(execution := k) else l.(display := k)
  }

  function Acquire(l: Locks, t: LockType, a: LockAnswers): (Locks, bool) {
    var k := Get(l, t);
    if k.count > 0 then (Put(l, t, k.(count := k.count + 1)), true)
    else if !a.createOk then (l, false)
    else
      var h := l.nextHandle;
      if !a.setOk then (l.(open := l.open + {h} - {h}, nextHandle := h + 1), false)
      else (Put(l.(open := l.open + {h}, nextHandle := h + 1), t, Lock(1, h)), true)
  }

  function Release(l: Locks, t: LockType, a: LockAnswers): (Locks, bool) {
    var k := Get(l, t);
    if k.count == 0 then (l, true)
    else if k.count > 1 then (Put(l, t, k.(count := k.count - 1)), true)
    else if !a.clearOk then (l, false)
    else (Put(l.(open := l.open - {k.handle}), t, UNLOCKED), true)
  }

  class Locker {
    var execution: Lock
    var display: Lock
    var open: set<nat>
    var nextHandle: nat

    ghost function State(): Locks reads this { Locks(execution, display, open, nextHandle) }

    constructor ()
      ensures State() == Locks(UNLOCKED, UNLOCKED, {}, 1)
    {
      execution, display, open, nextHandle := UNLOCKED, UNLOCKED, {}, 1;
    }

    method Store(t: LockType, k: Lock)
      modifies this
      ensures State() == Put(old(State()), t, k)
    {
      if t == ExecutionRequired { execution := k; } else { display := k; }
    }

    method AcquireLock(t: LockType, a: LockAnswers) returns (ok: bool)
      modifies this
      ensures (State(), ok) == Acquire(old(State()), t, a)
    {
      var k := if t == ExecutionRequired then execution else display;
      if k.count == 0 {
        if !a.createOk { return false; }
        var handle := nextHandle;
        open, nextHandle := open + {handle}, nextHandle + 1;
        if !a.setOk {
          open := open - {handle};
          return false;
        }
        k := Lock(0, handle);
      }
      Store(t, k.(count := k.count + 1));
      return true;
    }

    method ReleaseLock(t: LockType, a: LockAnswers) returns (ok: bool)
      modifies this
      ensures (State(), ok) == Release(old(State()), t, a)
    {
      var k := if t == ExecutionRequired then execution else display;
      if k.count == 0 { return true; }
      Store(t, k.(count := k.count - 1));
      if k.count == 1 {
        if !a.clearOk {
          Store(t, k);
          return false;
        }
        open := open - {k.handle};
        Store(t, UNLOCKED);
      }
      return true;
    }

    /** Destruction closes every request, whether or not it could be cleared. */
    method ReleaseAll()
      modifies this
      ensures execution == UNLOCKED && display == UNLOCKED
      ensures open == old(open) - (if old(execution).count > 0 then {old(execution).handle} else {})
                                - (if old(display).count > 0 then {old(display).handle} else {})
    {
      if execution.count > 0 { open := open - {execution.handle}; }
      execution := UNLOCKED;
      if display.count > 0 { open := open - {display.handle}; }
      display := UNLOCKED;
    }
  }

  /** Exactly one open handle per held lock, and never a stale or shared one. */
  ghost predicate HandlesMatch(l: Locks) {
    && l.open == (if l.execution.count > 0 then {l.execution.handle} else {}) + (if l.display.count > 0 then {l.display.handle} else {})
    && (l.execution.count > 0 && l.display.count > 0 ==> l.execution.handle != l.display.handle)
    && (forall h | h in l.open :: h < l.nextHandle)
    && (l.execution.count == 0 ==> l.execution == UNLOCKED) && (l.display.count == 0 ==> l.display == UNLOCKED)
  }

  /** Whatever the system answers, the open handles are those of the held locks. */
  lemma {:induction false} AcquireKeepsHandles(l: Locks, t: LockType, a: LockAnswers)
    requires HandlesMatch(l)
    ensures HandlesMatch(Acquire(l, t, a).0)
    ensures !Acquire(l, t, a).1 ==> Get(Acquire(l, t, a).0, t) == Get(l, t)
    ensures Acquire(l, t, a).1 ==> Get(Acquire(l, t, a).0, t).count == Get(l, t).count + 1
    ensures Acquire(l, t, a).1 <==> Get(l, t).count > 0 || (a.createOk && a.setOk)
  {
  }

  lemma {:induction false} ReleaseKeepsHandles(l: Locks, t: LockType, a: LockAnswers)
    requires HandlesMatch(l)
    ensures HandlesMatch(Release(l, t, a).0)
    ensures !Release(l, t, a).1 ==> Get(Release(l, t, a).0, t) == Get(l, t)
    ensures Release(l, t, a).1 && Get(l, t).count > 0 ==> Get(Release(l, t, a).0, t).count == Get(l, t).count - 1
    ensures Release(l, t, a).1 <==> Get(l, t).count != 1 || a.clearOk
  {
  }

  /** One call by anyone, with what the system answers. */
  datatype Use = Locked(lockType: LockType, answers: LockAnswers) | Unlocked(lockType: LockType, answers: LockAnswers)

  function Step(l: Locks, u: Use): Locks {
    match u
    case Locked(t, a) => Acquire(l, t, a).0
    case Unlocked(t, a) => Release(l, t, a).0
  }

  const IDLE := Locks(UNLOCKED, UNLOCKED, {}, 1)

  function Run(uses: seq<Use>): Locks {
    if uses == [] then IDLE else Step(Run(uses[..|uses| - 1]), uses[|uses| - 1])
  }

  /** The acquisitions of a lock that succeeded. */
  function Taken(uses: seq<Use>, t: LockType): nat {
    if uses == [] then 0
    else
      var before, u := uses[..|uses| - 1], uses[|uses| - 1];
      Taken(before, t) + if u.Locked? && u.lockType == t && Acquire(Run(before), t, u.answers).1 then 1 else 0
  }

  /** The releases of a lock that succeeded while it was held. */
  function Given(uses: seq<Use>, t: LockType): nat {
    if uses == [] then 0
    else
      var before, u := uses[..|uses| - 1], uses[|uses| - 1];
      Given(before, t) + if u.Unlocked? && u.lockType == t && Get(Run(before), t).count > 0 && Release(Run(before), t, u.answers).1 then 1 else 0
  }

  lemma {:induction false} OtherLockStays(l: Locks, u: Use, t: LockType)
    requires u.lockType != t
    ensures Get(Step(l, u), t) == Get(l, t)
  {
  }

  /** Over every run the count of a lock is what was taken and not given back, and the open handles are those of the held locks. */
  lemma {:induction false} CountIsTheBalance(uses: seq<Use>, t: LockType)
    ensures HandlesMatch(Run(uses)) && Get(Run(uses), t).count + Given(uses, t) == Taken(uses, t)
    decreases |uses|
  {
    if uses != [] {
      var before, u := uses[..|uses| - 1], uses[|uses| - 1];
      CountIsTheBalance(before, t);
      if u.lockType != t { OtherLockStays(Run(before), u, t); }
      match u
      case Locked(k, a) => AcquireKeepsHandles(Run(before), k, a);
      case Unlocked(k, a) => ReleaseKeepsHandles(Run(before), k, a);
    }
  }

  /** After any interleaving a lock is gone, its request closed with it, exactly when it was given back as often as it was taken. */
  lemma {:induction false} BalancedUseEndsUnlocked(uses: seq<Use>, t: LockType)
    ensures Get(Run(uses), t) == UNLOCKED <==> Taken(uses, t) == Given(uses, t)
    ensures Taken(uses, t) == Given(uses, t) ==> forall h | h in Run(uses).open ::
              (t == ExecutionRequired ==> h == Run(uses).display.handle) && (t == DisplayRequired ==> h == Run(uses).execution.handle)
  {
    CountIsTheBalance(uses, t);
  }
}
