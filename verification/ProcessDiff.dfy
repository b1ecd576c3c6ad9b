/**
  One poll of the process watcher: the tracked table and the processes now present give the new
  table and the transitions to report (DiffProcessPresence in source/process/process_watcher.cpp).
 */
module ProcessDiff {
  import opened Text

  datatype State = NotRunning | Starting | Running | Suspended | Exiting
  datatype Details = Details(processName: string, windowTitle: string, isForeground: bool, isFullscreen: bool)
  datatype Info = Info(gameId: string, pid: nat, details: Details, state: State, generation: nat, creation: nat)
  datatype Presence = Presence(gameId: string, pid: nat, details: Details, creation: nat)
  datatype Transition = Transition(gameId: string, previous: State, current: State, info: Info)
  datatype Diff = Diff(tracked: seq<Info>, transitions: seq<Transition>, next: nat)

  datatype Key = Key(gameId: string, pid: nat)

  function KeyOf(x: Info): Key { Key(x.gameId, x.pid) }

  function PresenceKey(p: Presence): Key { Key(p.gameId, p.pid) }

  /** The first entry under a key. */
  function Tracked(table: seq<Info>, key: Key): (x: Option<Info>)
    ensures x.Some? ==> x.value in table && KeyOf(x.value) == key
    ensures x.None? ==> forall y | y in table :: KeyOf(y) != key
  {
    if table == [] then None
    else if KeyOf(table[0]) == key then Some(table[0])
    else Tracked(table[1..], key)
  }

  predicate Present(presence: seq<Presence>, key: Key) {
    exists i | 0 <= i < |presence| :: PresenceKey(presence[i]) == key
  }

  function ToInfo(p: Presence, state: State, generation: nat): Info {
    Info(p.gameId, p.pid, p.details, state, generation, p.creation)
  }

  /** Both creation times are known and they differ. */
  predicate Restarted(prev: Info, item: Presence) {
    prev.creation != 0 && item.creation != 0 && prev.creation != item.creation
  }

  // ---------- the specification: one item at a time ----------

  /** A process that is present. */
  function Arrive(previous: seq<Info>, d: Diff, item: Presence): Diff {
    if item.pid == 0 then d
    else
      var begun := ToInfo(item, Starting, d.next);
      var begin := Transition(item.gameId, NotRunning, Starting, begun);
      match Tracked(previous, PresenceKey(item))
      case None => Diff(d.tracked + [begun], d.transitions + [begin], d.next + 1)
      case Some(prev) =>
        if Restarted(prev, item) then
          Diff(d.tracked + [begun], d.transitions + [Transition(item.gameId, prev.state, Exiting, prev)] + [begin], d.next + 1)
        else
          var info := ToInfo(item, Running, prev.generation);
          var change := if prev.state == Running then [] else [Transition(item.gameId, prev.state, Running, info)];
          d.(tracked := d.tracked + [info], transitions := d.transitions + change)
  }

  function Arrivals(previous: seq<Info>, presence: seq<Presence>, next: nat): Diff
    decreases |presence|
  {
    if presence == [] then Diff([], [], next)
    else Arrive(previous, Arrivals(previous, presence[..|presence| - 1], next), presence[|presence| - 1])
  }

  /** An entry whose process is gone: kept as exiting for one poll, then dropped. */
  function Depart(presence: seq<Presence>, d: Diff, prev: Info): Diff {
    if Present(presence, KeyOf(prev)) || prev.state == NotRunning then d
    else if prev.state == Exiting then
      d.(transitions := d.transitions + [Transition(prev.gameId, Exiting, NotRunning, prev)])
    else
      var info := prev.(state := Exiting);
      d.(tracked := d.tracked + [info], transitions := d.transitions + [Transition(prev.gameId, prev.state, Exiting, info)])
  }

  function Departures(presence: seq<Presence>, previous: seq<Info>, start: Diff): Diff
    decreases |previous|
  {
    if previous == [] then start
    else Depart(presence, Departures(presence, previous[..|previous| - 1], start), previous[|previous| - 1])
  }

  function Poll(previous: seq<Info>, presence: seq<Presence>, next: nat): Diff {
    Departures(presence, previous, Arrivals(previous, presence, next))
  }

  // ---------- the loops ----------

  method FindTracked(table: seq<Info>, gameId: string, pid: nat) returns (x: Option<Info>)
    ensures x == Tracked(table, Key(gameId, pid))
  {
    for k := 0 to |table|
      invariant Tracked(table, Key(gameId, pid)) == Tracked(table[k..], Key(gameId, pid))
    {
      if table[k].gameId == gameId && table[k].pid == pid { return Some(table[k]); }
    }
    return None;
  }

  method PresenceHas(presence: seq<Presence>, gameId: string, pid: nat) returns (has: bool)
    ensures has == Present(presence, Key(gameId, pid))
  {
    for k := 0 to |presence|
      invariant forall i | 0 <= i < k :: PresenceKey(presence[i]) != Key(gameId, pid)
    {
      if presence[k].gameId == gameId && presence[k].pid == pid {
        assert PresenceKey(presence[k]) == Key(gameId, pid);
        return true;
      }
    }
    return false;
  }

  method FirstPass(previous: seq<Info>, presence: seq<Presence>, nextGeneration: nat) returns (d: Diff)
    ensures d == Arrivals(previous, presence, nextGeneration)
  {
    d := Diff([], [], nextGeneration);
    for k := 0 to |presence|
      invariant d == Arrivals(previous, presence[..k], nextGeneration)
    {
      assert presence[..k + 1][..k] == presence[..k];
      var item := presence[k];
      if item.pid == 0 { continue; }
      var prev := FindTracked(previous, item.gameId, item.pid);
      if prev == None || (prev.value.creation != 0 && item.creation != 0 && prev.value.creation != item.creation) {
        if prev.Some? {
          d := d.(transitions := d.transitions + [Transition(item.gameId, prev.value.state, Exiting, prev.value)]);
        }
        var info := ToInfo(item, Starting, d.next);
        d := Diff(d.tracked + [info], d.transitions + [Transition(item.gameId, NotRunning, Starting, info)], d.next + 1);
        continue;
      }
      var info := ToInfo(item, Running, prev.value.generation);
      if prev.value.state != Running {
        d := d.(transitions := d.transitions + [Transition(item.gameId, prev.value.state, Running, info)]);
      }
      d := d.(tracked := d.tracked + [info]);
    }
    assert presence[..|presence|] == presence;
  }

  method SecondPass(presence: seq<Presence>, previous: seq<Info>, start: Diff) returns (d: Diff)
    ensures d == Departures(presence, previous, start)
  {
    d := start;
    for k := 0 to |previous|
      invariant d == Departures(presence, previous[..k], start)
    {
      assert previous[..k + 1][..k] == previous[..k];
      var prev := previous[k];
      var has := PresenceHas(presence, prev.gameId, prev.pid);
      if has { continue; }
      match prev.state {
        case NotRunning =>
        case Exiting =>
          d := d.(transitions := d.transitions + [Transition(prev.gameId, prev.state, NotRunning, prev)]);
        case _ =>
          var info := prev.(state := Exiting);
          d := d.(tracked := d.tracked + [info], transitions := d.transitions + [Transition(prev.gameId, prev.state, Exiting, info)]);
      }
    }
    assert previous[..|previous|] == previous;
  }

  method DiffProcessPresence(previous: seq<Info>, presence: seq<Presence>, nextGeneration: nat) returns (d: Diff)
    ensures d == Poll(previous, presence, nextGeneration)
  {
    d := FirstPass(previous, presence, nextGeneration);
    d := SecondPass(presence, previous, d);
  }

  // ---------- keys ----------

  predicate Distinct(ks: seq<Key>) { forall i, j | 0 <= i < j < |ks| :: ks[i] != ks[j] }

  function Keys(table: seq<Info>): (ks: seq<Key>)
    ensures |ks| == |table| && forall i | 0 <= i < |ks| :: ks[i] == KeyOf(table[i])
  {
    seq(|table|, i requires 0 <= i < |table| => KeyOf(table[i]))
  }

  /** The keys of the processes found, in order; a zero pid is no process. */
  function Found(presence: seq<Presence>): seq<Key> {
    if presence == [] then []
    else
      var item := presence[|presence| - 1];
      Found(presence[..|presence| - 1]) + if item.pid == 0 then [] else [PresenceKey(item)]
  }

  /** The keys that stay for a last round. */
  function Leaving(presence: seq<Presence>, previous: seq<Info>): seq<Key>
    decreases |previous|
  {
    if previous == [] then []
    else
      var prev := previous[|previous| - 1];
      Leaving(presence, previous[..|previous| - 1])
        + if Present(presence, KeyOf(prev)) || prev.state == NotRunning || prev.state == Exiting then [] else [KeyOf(prev)]
  }

  lemma {:induction false} KeysSnoc(table: seq<Info>, x: Info)
    ensures Keys(table + [x]) == Keys(table) + [KeyOf(x)]
  {
  }

  lemma {:induction false} ArriveKeys(previous: seq<Info>, d: Diff, item: Presence)
    ensures Keys(Arrive(previous, d, item).tracked) == Keys(d.tracked) + if item.pid == 0 then [] else [PresenceKey(item)]
  {
    var r := Arrive(previous, d, item);
    if item.pid != 0 {
      KeysSnoc(d.tracked, r.tracked[|d.tracked|]);
    }
  }

  lemma {:induction false} ArrivalKeys(previous: seq<Info>, presence: seq<Presence>, next: nat)
    ensures Keys(Arrivals(previous, presence, next).tracked) == Found(presence)
    decreases |presence|
  {
    if presence != [] {
      var before := presence[..|presence| - 1];
      ArrivalKeys(previous, before, next);
      ArriveKeys(previous, Arrivals(previous, before, next), presence[|presence| - 1]);
    }
  }

  lemma {:induction false} DepartureKeys(presence: seq<Presence>, previous: seq<Info>, start: Diff)
    ensures Keys(Departures(presence, previous, start).tracked) == Keys(start.tracked) + Leaving(presence, previous)
    decreases |previous|
  {
    if previous != [] {
      var before, prev := previous[..|previous| - 1], previous[|previous| - 1];
      DepartureKeys(presence, before, start);
      KeysSnoc(Departures(presence, before, start).tracked, prev.(state := Exiting));
    }
  }

  lemma {:induction false} FoundArePresent(presence: seq<Presence>)
    ensures forall k | k in Found(presence) :: Present(presence, k) && k.pid != 0
    decreases |presence|
  {
    if presence != [] {
      var n := |presence| - 1;
      FoundArePresent(presence[..n]);
      assert PresenceKey(presence[n]) == PresenceKey(presence[n]);
      forall k | k in Found(presence[..n]) ensures Present(presence, k) {
        var i :| 0 <= i < n && PresenceKey(presence[..n][i]) == k;
        assert PresenceKey(presence[i]) == k;
      }
    }
  }

  lemma {:induction false} LeavingComeFromTable(presence: seq<Presence>, previous: seq<Info>)
    requires Distinct(Keys(previous))
    ensures Distinct(Leaving(presence, previous))
    ensures forall k | k in Leaving(presence, previous) :: k in Keys(previous) && !Present(presence, k)
    decreases |previous|
  {
    if previous != [] {
      var before, prev := previous[..|previous| - 1], previous[|previous| - 1];
      assert Keys(previous) == Keys(before) + [KeyOf(prev)];
      LeavingComeFromTable(presence, before);
    }
  }

  lemma {:induction false} DistinctConcat(a: seq<Key>, b: seq<Key>)
    requires Distinct(b) && forall k | k in b :: k !in a
    ensures Distinct(a + b) <==> Distinct(a)
  {
    var c := a + b;
    assert forall i | 0 <= i < |a| :: c[i] == a[i];
    if Distinct(a) {
      forall i, j | 0 <= i < j < |c| ensures c[i] != c[j] {
        if j >= |a| {
          assert c[j] == b[j - |a|] && b[j - |a|] in b;
          if i < |a| { assert a[i] in a; } else { assert c[i] == b[i - |a|]; }
        }
      }
    }
  }

  /** The new table lists the processes found, then those that stay for a last round. */
  lemma {:induction false} PollKeys(previous: seq<Info>, presence: seq<Presence>, next: nat)
    ensures Keys(Poll(previous, presence, next).tracked) == Found(presence) + Leaving(presence, previous)
  {
    ArrivalKeys(previous, presence, next);
    DepartureKeys(presence, previous, Arrivals(previous, presence, next));
  }

  /** A table with distinct keys gets distinct keys again exactly when no process was found twice. */
  lemma {:induction false} KeysStayDistinctIff(previous: seq<Info>, presence: seq<Presence>, next: nat)
    requires Distinct(Keys(previous))
    ensures Distinct(Keys(Poll(previous, presence, next).tracked)) <==> Distinct(Found(presence))
  {
    PollKeys(previous, presence, next);
    FoundArePresent(presence);
    LeavingComeFromTable(presence, previous);
    DistinctConcat(Found(presence), Leaving(presence, previous));
  }

  // ---------- what is listed and reported about each process ----------

  /** A diff that only grows. */
  predicate Grows(d: Diff, r: Diff) { d.tracked <= r.tracked && d.transitions <= r.transitions && d.next <= r.next }

  lemma {:induction false} GrowsOn(a: Diff, b: Diff, c: Diff)
    requires Grows(a, b) && Grows(b, c)
    ensures Grows(a, c)
  {
  }

  lemma {:induction false} ArriveGrows(previous: seq<Info>, d: Diff, item: Presence)
    ensures Grows(d, Arrive(previous, d, item))
  {
  }

  lemma {:induction false} ArrivalsStep(previous: seq<Info>, presence: seq<Presence>, next: nat, n: nat)
    requires n < |presence|
    ensures Arrivals(previous, presence[..n + 1], next) == Arrive(previous, Arrivals(previous, presence[..n], next), presence[n])
  {
    assert presence[..n + 1][..n] == presence[..n];
  }

  lemma {:induction false} ArrivalsGrow(previous: seq<Info>, presence: seq<Presence>, next: nat, k: nat, n: nat)
    requires k <= n <= |presence|
    ensures Grows(Arrivals(previous, presence[..k], next), Arrivals(previous, presence[..n], next))
    decreases n
  {
    if k < n {
      ArrivalsGrow(previous, presence, next, k, n - 1);
      ArrivalsStep(previous, presence, next, n - 1);
      ArriveGrows(previous, Arrivals(previous, presence[..n - 1], next), presence[n - 1]);
      GrowsOn(Arrivals(previous, presence[..k], next), Arrivals(previous, presence[..n - 1], next), Arrivals(previous, presence[..n], next));
    }
  }

  lemma {:induction false} DepartGrows(presence: seq<Presence>, d: Diff, prev: Info)
    ensures Grows(d, Depart(presence, d, prev))
  {
  }

  lemma {:induction false} DeparturesGrow(presence: seq<Presence>, previous: seq<Info>, start: Diff, k: nat, n: nat)
    requires k <= n <= |previous|
    ensures Grows(Departures(presence, previous[..k], start), Departures(presence, previous[..n], start))
    decreases n
  {
    if k < n {
      DeparturesGrow(presence, previous, start, k, n - 1);
      DeparturesStep(presence, previous, start, n);
      DepartGrows(presence, Departures(presence, previous[..n - 1], start), previous[n - 1]);
      GrowsOn(Departures(presence, previous[..k], start), Departures(presence, previous[..n - 1], start), Departures(presence, previous[..n], start));
    }
  }

  lemma {:induction false} ArrivalStays(previous: seq<Info>, presence: seq<Presence>, next: nat, n: nat)
    requires n <= |presence|
    ensures Grows(Arrivals(previous, presence[..n], next), Poll(previous, presence, next))
  {
    var start := Arrivals(previous, presence, next);
    ArrivalsGrow(previous, presence, next, n, |presence|);
    DeparturesGrow(presence, previous, start, 0, |previous|);
    assert presence[..|presence|] == presence && previous[..|previous|] == previous && previous[..0] == [];
    assert Departures(presence, previous[..0], start) == start;
    GrowsOn(Arrivals(previous, presence[..n], next), start, Poll(previous, presence, next));
  }

  /** The same process as the tracked one, as far as the creation times tell. */
  predicate CarriesOn(prev: Option<Info>, item: Presence) {
    prev.Some? && (prev.value.creation == 0 || item.creation == 0 || prev.value.creation == item.creation)
  }

  /** What one found process adds: its entry with the details just observed, and the report of it. */
  ghost predicate IsListed(prev: Option<Info>, item: Presence, next: nat, x: Info, ts: seq<Transition>) {
    && x.gameId == item.gameId && x.pid == item.pid && x.details == item.details && x.creation == item.creation
    && (if CarriesOn(prev, item)
        then && x.state == Running && x.generation == prev.value.generation
             && (prev.value.state != Running ==> Transition(item.gameId, prev.value.state, Running, x) in ts)
        else && x.state == Starting && x.generation >= next && Transition(item.gameId, NotRunning, Starting, x) in ts
             && (prev.Some? ==> Transition(item.gameId, prev.value.state, Exiting, prev.value) in ts))
  }

  lemma {:induction false} ArriveLists(previous: seq<Info>, d: Diff, item: Presence)
    requires item.pid != 0
    ensures var r := Arrive(previous, d, item);
            |r.tracked| == |d.tracked| + 1 && IsListed(Tracked(previous, PresenceKey(item)), item, d.next, r.tracked[|d.tracked|], r.transitions)
  {
    var r, prev := Arrive(previous, d, item), Tracked(previous, PresenceKey(item));
    assert r.transitions != [] ==> r.transitions[|r.transitions| - 1] in r.transitions;
    if prev.Some? && Restarted(prev.value, item) {
      assert r.transitions[|d.transitions|] == Transition(item.gameId, prev.value.state, Exiting, prev.value);
    }
  }

  lemma {:induction false} ListedInMore(prev: Option<Info>, item: Presence, from: nat, to: nat, x: Info, ts: seq<Transition>, more: seq<Transition>)
    requires IsListed(prev, item, to, x, ts) && from <= to && ts <= more
    ensures IsListed(prev, item, from, x, more)
  {
    assert forall t | t in ts :: t in more by {
      forall t | t in ts ensures t in more { var i :| 0 <= i < |ts| && ts[i] == t; assert more[i] == t; }
    }
  }

  /**
    Every process found has its place in the new table, that of its turn among the processes found, with what was just observed about
    it; it goes on as running under its generation or starts under a new one, and this is what is reported.
   */
  lemma {:induction false} FoundIsListed(previous: seq<Info>, presence: seq<Presence>, next: nat, i: nat)
    requires i < |presence| && presence[i].pid != 0
    ensures var d, k := Poll(previous, presence, next), |Found(presence[..i])|;
            k < |d.tracked| && IsListed(Tracked(previous, PresenceKey(presence[i])), presence[i], next, d.tracked[k], d.transitions)
  {
    var before := Arrivals(previous, presence[..i], next);
    var d := Poll(previous, presence, next);
    ArrivalKeys(previous, presence[..i], next);
    ArrivalsGrow(previous, presence, next, 0, i);
    assert presence[..0] == [];
    ArrivalsStep(previous, presence, next, i);
    var after := Arrivals(previous, presence[..i + 1], next);
    ArriveLists(previous, before, presence[i]);
    ArrivalStays(previous, presence, next, i + 1);
    var k := |before.tracked|;
    assert k == |Found(presence[..i])| && d.tracked[k] == after.tracked[k];
    ListedInMore(Tracked(previous, PresenceKey(presence[i])), presence[i], next, before.next, after.tracked[k], after.transitions, d.transitions);
  }

  /** A tracked process that is not found any more stays for one round as exiting, everything else about it as it was, and is gone the next time. */
  lemma {:induction false} GoneIsReported(previous: seq<Info>, presence: seq<Presence>, next: nat, i: nat)
    requires i < |previous| && !Present(presence, KeyOf(previous[i]))
    ensures var d, p := Poll(previous, presence, next), previous[i];
            && (p.state in {Starting, Running, Suspended} ==>
                  p.(state := Exiting) in d.tracked && Transition(p.gameId, p.state, Exiting, p.(state := Exiting)) in d.transitions)
            && (p.state == Exiting ==> Transition(p.gameId, Exiting, NotRunning, p) in d.transitions)
            && (p.state == Exiting && TableOk(previous) ==> KeyOf(p) !in Keys(d.tracked))
  {
    var start, p, d := Arrivals(previous, presence, next), previous[i], Poll(previous, presence, next);
    var before, after := Departures(presence, previous[..i], start), Departures(presence, previous[..i + 1], start);
    DeparturesStep(presence, previous, start, i + 1);
    DeparturesGrow(presence, previous, start, i + 1, |previous|);
    assert previous[..|previous|] == previous;
    assert after.tracked != [] ==> d.tracked[|after.tracked| - 1] == after.tracked[|after.tracked| - 1];
    assert after.transitions != [] ==> d.transitions[|after.transitions| - 1] == after.transitions[|after.transitions| - 1];
    if p.state == Exiting && TableOk(previous) {
      PollKeys(previous, presence, next);
      FoundArePresent(presence);
      LeavingAreNotExiting(presence, previous, i);
    }
  }

  lemma {:induction false} LeavingAreNotExiting(presence: seq<Presence>, previous: seq<Info>, i: nat)
    requires i < |previous| && Distinct(Keys(previous)) && previous[i].state == Exiting
    ensures KeyOf(previous[i]) !in Leaving(presence, previous)
    decreases |previous|
  {
    var n := |previous| - 1;
    var ks := Keys(previous);
    assert Keys(previous[..n]) == ks[..n] && ks[i] == KeyOf(previous[i]);
    if i < n {
      LeavingAreNotExiting(presence, previous[..n], i);
      assert ks[n] == KeyOf(previous[n]) != ks[i];
    } else {
      LeavingComeFromTable(presence, previous[..n]);
      assert KeyOf(previous[n]) !in ks[..n];
    }
  }

  /** A reported transition changes the state, but for the exit of a process that is restarted while it was exiting. */
  predicate IsAChange(previous: seq<Info>, presence: seq<Presence>, t: Transition) {
    t.previous != t.current || (t.previous == Exiting && RestartFound(previous, presence, Key(t.gameId, t.info.pid)))
  }

  lemma {:induction false} ArriveReportsChanges(previous: seq<Info>, presence: seq<Presence>, d: Diff, i: nat)
    requires i < |presence| && forall t | t in d.transitions :: IsAChange(previous, presence, t)
    ensures forall t | t in Arrive(previous, d, presence[i]).transitions :: IsAChange(previous, presence, t)
  {
    var item := presence[i];
    var prev := Tracked(previous, PresenceKey(item));
    if item.pid != 0 && prev.Some? && Restarted(prev.value, item) {
      assert RestartsKey(previous, presence[i], PresenceKey(item));
      assert IsAChange(previous, presence, Transition(item.gameId, prev.value.state, Exiting, prev.value));
    }
  }

  lemma {:induction false} ArrivalsReportChanges(previous: seq<Info>, presence: seq<Presence>, next: nat, n: nat)
    requires n <= |presence|
    ensures forall t | t in Arrivals(previous, presence[..n], next).transitions :: IsAChange(previous, presence, t)
    decreases n
  {
    if n > 0 {
      ArrivalsReportChanges(previous, presence, next, n - 1);
      ArrivalsStep(previous, presence, next, n - 1);
      ArriveReportsChanges(previous, presence, Arrivals(previous, presence[..n - 1], next), n - 1);
    }
  }

  lemma {:induction false} DeparturesReportChanges(previous: seq<Info>, presence: seq<Presence>, table: seq<Info>, start: Diff)
    requires forall t | t in start.transitions :: IsAChange(previous, presence, t)
    ensures forall t | t in Departures(presence, table, start).transitions :: IsAChange(previous, presence, t)
    decreases |table|
  {
    if table != [] { DeparturesReportChanges(previous, presence, table[..|table| - 1], start); }
  }

  /** Nothing is reported about a process whose state stays, save for the exit that a restart repeats. */
  lemma {:induction false} OnlyChangesAreReported(previous: seq<Info>, presence: seq<Presence>, next: nat, t: Transition)
    requires t in Poll(previous, presence, next).transitions
    ensures t.previous != t.current || (t.previous == Exiting && RestartFound(previous, presence, Key(t.gameId, t.info.pid)))
  {
    ArrivalsReportChanges(previous, presence, next, |presence|);
    assert presence[..|presence|] == presence;
    DeparturesReportChanges(previous, presence, previous, Arrivals(previous, presence, next));
  }

  // ---------- replay ----------

  function StateIn(table: seq<Info>, key: Key): State {
    var x := Tracked(table, key);
    if x.None? then NotRunning else x.value.state
  }

  /** An observer of one key. The strict one wants every transition to start in the state the last one led to;
      the other one lets a start follow an exit without the word that it is over. */
  function Next(strict: bool, s: Option<State>, t: Transition, key: Key): Option<State> {
    if s == None || Key(t.gameId, t.info.pid) != key then s
    else if t.previous == s.value || (!strict && t.previous == NotRunning && s.value == Exiting && t.current == Starting) then Some(t.current)
    else None
  }

  /** The state of a key after some transitions; None if one of them does not fit the state before it. */
  function Replay(strict: bool, s: State, ts: seq<Transition>, key: Key): Option<State>
    decreases |ts|
  {
    if ts == [] then Some(s) else Next(strict, Replay(strict, s, ts[..|ts| - 1], key), ts[|ts| - 1], key)
  }

  lemma {:induction false} ReplaySnoc(strict: bool, s: State, ts: seq<Transition>, t: Transition, key: Key)
    ensures Replay(strict, s, ts + [t], key) == Next(strict, Replay(strict, s, ts, key), t, key)
  {
    assert (ts + [t])[..|ts|] == ts;
  }

  lemma {:induction false} TrackedSnoc(table: seq<Info>, x: Info, key: Key)
    ensures Tracked(table + [x], key) ==
      if Tracked(table, key).Some? then Tracked(table, key) else if KeyOf(x) == key then Some(x) else None
    decreases |table|
  {
    if table == [] {
      assert [] + [x] == [x] && [x][1..] == [];
    } else {
      assert (table + [x])[1..] == table[1..] + [x];
      TrackedSnoc(table[1..], x, key);
    }
  }

  lemma {:induction false} StateInSnoc(table: seq<Info>, x: Info, key: Key)
    ensures StateIn(table + [x], key) == if Tracked(table, key).None? && KeyOf(x) == key then x.state else StateIn(table, key)
  {
    TrackedSnoc(table, x, key);
  }

  /** A process found under the key is a restart of the one tracked there. */
  predicate RestartsKey(previous: seq<Info>, item: Presence, key: Key) {
    && item.pid != 0 && PresenceKey(item) == key
    && Tracked(previous, key).Some? && Restarted(Tracked(previous, key).value, item)
  }

  predicate RestartFound(previous: seq<Info>, presence: seq<Presence>, key: Key) {
    exists i | 0 <= i < |presence| :: RestartsKey(previous, presence[i], key)
  }

  /** Replaying leads a key to its state in the new table once it is dealt with, and nowhere before; a broken replay has no state. */
  ghost predicate Settled(strict: bool, broken: bool, s: State, d: Diff, key: Key, done: bool) {
    Replay(strict, s, d.transitions, key) == if broken then None else Some(if done then StateIn(d.tracked, key) else s)
  }

  /** The transitions of a present process leave other keys alone. */
  lemma {:induction false} ArriveLeavesOthers(strict: bool, previous: seq<Info>, d: Diff, item: Presence, key: Key, s: State)
    requires item.pid == 0 || PresenceKey(item) != key
    ensures Replay(strict, s, Arrive(previous, d, item).transitions, key) == Replay(strict, s, d.transitions, key)
  {
    if item.pid != 0 {
      var prev := Tracked(previous, PresenceKey(item));
      var begin := Transition(item.gameId, NotRunning, Starting, ToInfo(item, Starting, d.next));
      ReplaySnoc(strict, s, d.transitions, begin, key);
      if prev.Some? {
        var leave := Transition(item.gameId, prev.value.state, Exiting, prev.value);
        ReplaySnoc(strict, s, d.transitions, leave, key);
        ReplaySnoc(strict, s, d.transitions + [leave], begin, key);
        ReplaySnoc(strict, s, d.transitions, Transition(item.gameId, prev.value.state, Running, ToInfo(item, Running, prev.value.generation)), key);
        assert d.transitions + [] == d.transitions;
      }
    }
  }

  lemma {:induction false} BeginReplays(strict: bool, s: State, ts: seq<Transition>, begin: Transition, key: Key)
    requires Key(begin.gameId, begin.info.pid) == key && begin.previous == NotRunning && begin.current == Starting
    requires Replay(strict, s, ts, key) == Some(NotRunning) || Replay(strict, s, ts, key) == Some(Exiting)
    ensures Replay(strict, s, ts + [begin], key) == if strict && Replay(strict, s, ts, key) == Some(Exiting) then None else Some(Starting)
  {
    ReplaySnoc(strict, s, ts, begin, key);
  }

  lemma {:induction false} ChangeReplays(strict: bool, s: State, ts: seq<Transition>, t: Transition, key: Key)
    requires Key(t.gameId, t.info.pid) == key && Replay(strict, s, ts, key) == Some(t.previous)
    ensures Replay(strict, s, ts + [t], key) == Some(t.current)
  {
    ReplaySnoc(strict, s, ts, t, key);
  }

  /** They lead its own key to its new state, but for a strict observer of a restart. */
  lemma {:induction false} ArriveMovesItsKey(strict: bool, previous: seq<Info>, d: Diff, item: Presence, key: Key, s: State)
    requires item.pid != 0 && PresenceKey(item) == key && s == StateIn(previous, key)
    requires Replay(strict, s, d.transitions, key) == Some(s)
    ensures var r := Arrive(previous, d, item);
            && |r.tracked| == |d.tracked| + 1
            && Replay(strict, s, r.transitions, key) == if strict && RestartsKey(previous, item, key) then None else Some(r.tracked[|d.tracked|].state)
  {
    var prev := Tracked(previous, key);
    var begin := Transition(item.gameId, NotRunning, Starting, ToInfo(item, Starting, d.next));
    if prev == None {
      BeginReplays(strict, s, d.transitions, begin, key);
    } else if Restarted(prev.value, item) {
      var leave := Transition(item.gameId, prev.value.state, Exiting, prev.value);
      ChangeReplays(strict, s, d.transitions, leave, key);
      BeginReplays(strict, s, d.transitions + [leave], begin, key);
    } else if prev.value.state == Running {
      assert d.transitions + [] == d.transitions;
    } else {
      ChangeReplays(strict, s, d.transitions, Transition(item.gameId, prev.value.state, Running, ToInfo(item, Running, prev.value.generation)), key);
    }
  }

  lemma {:induction false} ArriveReplays(strict: bool, broken: bool, previous: seq<Info>, d: Diff, item: Presence, key: Key, s: State)
    requires s == StateIn(previous, key) && Settled(strict, broken, s, d, key, key in Keys(d.tracked))
    requires item.pid != 0 && PresenceKey(item) == key ==> key !in Keys(d.tracked) && !broken
    ensures var r := Arrive(previous, d, item);
            Settled(strict, broken || (strict && RestartsKey(previous, item, key)), s, r, key, key in Keys(r.tracked))
  {
    var r := Arrive(previous, d, item);
    ArriveKeys(previous, d, item);
    if item.pid != 0 {
      assert r.tracked == d.tracked + [r.tracked[|d.tracked|]];
      StateInSnoc(d.tracked, r.tracked[|d.tracked|], key);
    }
    if item.pid == 0 || PresenceKey(item) != key {
      ArriveLeavesOthers(strict, previous, d, item, key, s);
    } else {
      ArriveMovesItsKey(strict, previous, d, item, key, s);
    }
  }

  lemma {:induction false} RestartFoundSnoc(previous: seq<Info>, presence: seq<Presence>, key: Key)
    requires presence != []
    ensures var n := |presence| - 1;
            RestartFound(previous, presence, key) <==> RestartFound(previous, presence[..n], key) || RestartsKey(previous, presence[n], key)
  {
    var n := |presence| - 1;
    if RestartFound(previous, presence[..n], key) {
      var i :| 0 <= i < n && RestartsKey(previous, presence[..n][i], key);
      assert RestartsKey(previous, presence[i], key);
    }
    if RestartFound(previous, presence, key) {
      var i :| 0 <= i <= n && RestartsKey(previous, presence[i], key);
      if i < n { assert RestartsKey(previous, presence[..n][i], key); }
    }
  }

  lemma {:induction false} RestartIsFound(previous: seq<Info>, presence: seq<Presence>, key: Key)
    requires RestartFound(previous, presence, key)
    ensures key in Found(presence)
  {
    var i :| 0 <= i < |presence| && RestartsKey(previous, presence[i], key);
    assert PresenceKey(presence[i]) == key;
    PresentAreFound(presence, key);
  }

  lemma {:induction false} DistinctPrefix(ks: seq<Key>, more: seq<Key>)
    requires Distinct(ks + more)
    ensures Distinct(ks) && forall k | k in more :: k !in ks
  {
    var all := ks + more;
    assert forall i | 0 <= i < |ks| :: all[i] == ks[i];
    assert forall j | 0 <= j < |more| :: all[|ks| + j] == more[j];
  }

  lemma {:induction false} ArrivalsReplay(strict: bool, previous: seq<Info>, presence: seq<Presence>, next: nat, key: Key)
    requires Distinct(Found(presence))
    ensures var d := Arrivals(previous, presence, next);
            Settled(strict, strict && RestartFound(previous, presence, key), StateIn(previous, key), d, key, key in Keys(d.tracked))
    decreases |presence|
  {
    if presence != [] {
      var before, item := presence[..|presence| - 1], presence[|presence| - 1];
      var found := if item.pid == 0 then [] else [PresenceKey(item)];
      assert Found(presence) == Found(before) + found;
      DistinctPrefix(Found(before), found);
      ArrivalsReplay(strict, previous, before, next, key);
      ArrivalKeys(previous, before, next);
      RestartFoundSnoc(previous, presence, key);
      if RestartFound(previous, before, key) { RestartIsFound(previous, before, key); }
      ArriveReplays(strict, strict && RestartFound(previous, before, key), previous, Arrivals(previous, before, next), item, key, StateIn(previous, key));
    }
  }

  lemma {:induction false} PresentAreFound(presence: seq<Presence>, key: Key)
    requires Present(presence, key) && key.pid != 0
    ensures key in Found(presence)
    decreases |presence|
  {
    var n := |presence| - 1;
    var i :| 0 <= i <= n && PresenceKey(presence[i]) == key;
    if i < n {
      assert PresenceKey(presence[..n][i]) == key;
      PresentAreFound(presence[..n], key);
    }
  }

  /** The entries a table can hold: real processes that are not already over, each under its own key. */
  predicate TableOk(table: seq<Info>) { Distinct(Keys(table)) && RealEntries(table) }

  predicate RealEntries(table: seq<Info>) {
    forall i | 0 <= i < |table| :: table[i].pid != 0 && table[i].state != NotRunning
  }

  lemma {:induction false} TrackedIs(table: seq<Info>, i: nat)
    requires Distinct(Keys(table)) && i < |table|
    ensures Tracked(table, KeyOf(table[i])) == Some(table[i])
    decreases i
  {
    var ks := Keys(table);
    assert ks[i] == KeyOf(table[i]);
    if i > 0 {
      assert ks[0] != ks[i];
      assert Keys(table[1..]) == ks[1..];
      TrackedIs(table[1..], i - 1);
    }
  }

  lemma {:induction false} DepartKeepsOthers(strict: bool, presence: seq<Presence>, d: Diff, prev: Info, key: Key, s: State)
    requires KeyOf(prev) != key || Present(presence, key) || Replay(strict, s, d.transitions, key).None?
    ensures Replay(strict, s, Depart(presence, d, prev).transitions, key) == Replay(strict, s, d.transitions, key)
    ensures KeyOf(prev) != key || Present(presence, key) ==> StateIn(Depart(presence, d, prev).tracked, key) == StateIn(d.tracked, key)
  {
    var t := Transition(prev.gameId, prev.state, Exiting, prev.(state := Exiting));
    StateInSnoc(d.tracked, t.info, key);
    ReplaySnoc(strict, s, d.transitions, t, key);
    ReplaySnoc(strict, s, d.transitions, Transition(prev.gameId, Exiting, NotRunning, prev), key);
  }

  lemma {:induction false} AbsentIsNotRunning(table: seq<Info>, key: Key)
    requires key !in Keys(table)
    ensures Tracked(table, key) == None && StateIn(table, key) == NotRunning
  {
    forall y | y in table ensures KeyOf(y) != key {
      var i :| 0 <= i < |table| && table[i] == y;
      assert Keys(table)[i] == KeyOf(y);
    }
  }

  lemma {:induction false} DepartMovesItsKey(strict: bool, presence: seq<Presence>, d: Diff, prev: Info, key: Key, s: State)
    requires Replay(strict, s, d.transitions, key) == Some(s) && prev.state != NotRunning
    requires KeyOf(prev) == key && !Present(presence, key) && s == prev.state && key !in Keys(d.tracked)
    ensures var r := Depart(presence, d, prev); Replay(strict, s, r.transitions, key) == Some(StateIn(r.tracked, key))
  {
    AbsentIsNotRunning(d.tracked, key);
    if prev.state == Exiting {
      ChangeReplays(strict, s, d.transitions, Transition(prev.gameId, Exiting, NotRunning, prev), key);
    } else {
      var t := Transition(prev.gameId, prev.state, Exiting, prev.(state := Exiting));
      ChangeReplays(strict, s, d.transitions, t, key);
      StateInSnoc(d.tracked, t.info, key);
    }
  }

  lemma {:induction false} DepartReplays(strict: bool, broken: bool, presence: seq<Presence>, d: Diff, prev: Info, key: Key, s: State, done: bool)
    requires Settled(strict, broken, s, d, key, done) && prev.state != NotRunning && (broken ==> done)
    requires KeyOf(prev) == key && !Present(presence, key) ==> !done && s == prev.state && key !in Keys(d.tracked)
    requires KeyOf(prev) == key && Present(presence, key) ==> done
    ensures Settled(strict, broken, s, Depart(presence, d, prev), key, done || KeyOf(prev) == key)
  {
    if KeyOf(prev) == key && !Present(presence, key) {
      DepartMovesItsKey(strict, presence, d, prev, key, s);
    } else {
      DepartKeepsOthers(strict, presence, d, prev, key, s);
    }
  }

  /** The keys of the first `n` entries. */
  predicate KeyBefore(table: seq<Info>, n: nat, key: Key)
    requires n <= |table|
  {
    exists i | 0 <= i < n :: KeyOf(table[i]) == key
  }

  lemma {:induction false} DepartureIsNew(previous: seq<Info>, presence: seq<Presence>, next: nat, n: nat)
    requires n < |previous| && TableOk(previous) && !Present(presence, KeyOf(previous[n]))
    ensures var d := Departures(presence, previous[..n], Arrivals(previous, presence, next));
            KeyOf(previous[n]) !in Keys(d.tracked)
    ensures KeyOf(previous[n]) !in Found(presence) && !KeyBefore(previous, n, KeyOf(previous[n]))
  {
    var ks := Keys(previous);
    assert ks[n] == KeyOf(previous[n]) && Keys(previous[..n]) == ks[..n];
    FoundArePresent(presence);
    ArrivalKeys(previous, presence, next);
    DepartureKeys(presence, previous[..n], Arrivals(previous, presence, next));
    LeavingComeFromTable(presence, previous[..n]);
  }

  /** One more entry of the old table dealt with. */
  lemma {:induction false} DepartureReplays(strict: bool, broken: bool, previous: seq<Info>, presence: seq<Presence>, next: nat, n: nat, key: Key)
    requires n < |previous| && TableOk(previous) && (broken ==> key in Found(presence))
    requires var d := Departures(presence, previous[..n], Arrivals(previous, presence, next));
             Settled(strict, broken, StateIn(previous, key), d, key, key in Found(presence) || KeyBefore(previous, n, key))
    ensures var d := Departures(presence, previous[..n], Arrivals(previous, presence, next));
            Settled(strict, broken, StateIn(previous, key), Depart(presence, d, previous[n]), key,
                    key in Found(presence) || KeyBefore(previous, n, key) || KeyOf(previous[n]) == key)
  {
    var d := Departures(presence, previous[..n], Arrivals(previous, presence, next));
    if KeyOf(previous[n]) == key {
      TrackedIs(previous, n);
      if Present(presence, key) { PresentAreFound(presence, key); } else { DepartureIsNew(previous, presence, next, n); }
    }
    DepartReplays(strict, broken, presence, d, previous[n], key, StateIn(previous, key), key in Found(presence) || KeyBefore(previous, n, key));
  }

  lemma {:induction false} DeparturesReplay(strict: bool, broken: bool, previous: seq<Info>, presence: seq<Presence>, next: nat, n: nat, key: Key)
    requires n <= |previous| && TableOk(previous) && Distinct(Found(presence)) && broken == (strict && RestartFound(previous, presence, key))
    ensures var d := Departures(presence, previous[..n], Arrivals(previous, presence, next));
            Settled(strict, broken, StateIn(previous, key), d, key, key in Found(presence) || KeyBefore(previous, n, key))
    decreases n
  {
    if n == 0 {
      ArrivalsReplay(strict, previous, presence, next, key);
      ArrivalKeys(previous, presence, next);
    } else {
      DeparturesReplay(strict, broken, previous, presence, next, n - 1, key);
      if broken { RestartIsFound(previous, presence, key); }
      DepartureReplays(strict, broken, previous, presence, next, n - 1, key);
      DeparturesStep(presence, previous, Arrivals(previous, presence, next), n);
      KeyBeforeNext(previous, n, key);
    }
  }

  lemma {:induction false} DeparturesStep(presence: seq<Presence>, previous: seq<Info>, start: Diff, n: nat)
    requires 0 < n <= |previous|
    ensures Departures(presence, previous[..n], start) == Depart(presence, Departures(presence, previous[..n - 1], start), previous[n - 1])
  {
    assert previous[..n][..n - 1] == previous[..n - 1];
  }

  lemma {:induction false} KeyBeforeNext(table: seq<Info>, n: nat, key: Key)
    requires 0 < n <= |table|
    ensures KeyBefore(table, n, key) <==> KeyBefore(table, n - 1, key) || KeyOf(table[n - 1]) == key
  {
  }

  lemma {:induction false} PollReplays(strict: bool, previous: seq<Info>, presence: seq<Presence>, next: nat, key: Key)
    requires TableOk(previous) && Distinct(Found(presence))
    ensures var d := Poll(previous, presence, next);
            Replay(strict, StateIn(previous, key), d.transitions, key) ==
              if strict && RestartFound(previous, presence, key) then None else Some(StateIn(d.tracked, key))
  {
    var d := Poll(previous, presence, next);
    DeparturesReplay(strict, strict && RestartFound(previous, presence, key), previous, presence, next, |previous|, key);
    assert previous[..|previous|] == previous;
    if key !in Found(presence) && !KeyBefore(previous, |previous|, key) {
      PollKeys(previous, presence, next);
      LeavingComeFromTable(presence, previous);
      assert key !in Keys(d.tracked);
      assert Tracked(previous, key) == None && Tracked(d.tracked, key) == None;
    }
  }

  /** For every key, the reported transitions lead from the old table's state to the new table's, a restart
      going from its exit straight to its new start. */
  lemma {:induction false} ReplayGivesTheNewTable(previous: seq<Info>, presence: seq<Presence>, next: nat, key: Key)
    requires TableOk(previous) && Distinct(Found(presence))
    ensures var d := Poll(previous, presence, next);
            Replay(false, StateIn(previous, key), d.transitions, key) == Some(StateIn(d.tracked, key))
  {
    PollReplays(false, previous, presence, next, key);
  }

  /** Each transition starts in the state the last one led to if and only if no process found under the key is a restart. */
  lemma {:induction false} StrictReplayIff(previous: seq<Info>, presence: seq<Presence>, next: nat, key: Key)
    requires TableOk(previous) && Distinct(Found(presence))
    ensures var d := Poll(previous, presence, next);
            && (Replay(true, StateIn(previous, key), d.transitions, key).Some? <==> !RestartFound(previous, presence, key))
            && (!RestartFound(previous, presence, key) ==> Replay(true, StateIn(previous, key), d.transitions, key) == Some(StateIn(d.tracked, key)))
  {
    PollReplays(true, previous, presence, next, key);
  }

  // ---------- generations ----------

  /** An entry goes on from `p`: same key, same generation, no restart in between. */
  predicate GoesOn(p: Info, x: Info) {
    && KeyOf(p) == KeyOf(x) && p.generation == x.generation
    && (p.creation == 0 || x.creation == 0 || p.creation == x.creation)
  }

  predicate Stems(previous: seq<Info>, next: nat, x: Info) {
    x.generation >= next || exists p | p in previous :: GoesOn(p, x)
  }

  /** The entries of a table carry generations already handed out. */
  predicate HandedOut(table: seq<Info>, next: nat) {
    forall i | 0 <= i < |table| :: table[i].generation < next
  }

  /** The generations from `next` on are used once each. */
  predicate FreshOnce(table: seq<Info>, next: nat) {
    forall i, j | 0 <= i < j < |table| :: table[i].generation >= next ==> table[i].generation != table[j].generation
  }

  predicate AllStem(previous: seq<Info>, next: nat, table: seq<Info>) {
    forall i | 0 <= i < |table| :: Stems(previous, next, table[i])
  }

  predicate Numbered(previous: seq<Info>, next: nat, d: Diff) {
    next <= d.next && HandedOut(d.tracked, d.next) && FreshOnce(d.tracked, next) && AllStem(previous, next, d.tracked) && RealEntries(d.tracked)
  }

  lemma {:induction false} AddNumbered(previous: seq<Info>, next: nat, d: Diff, x: Info, r: Diff)
    requires Numbered(previous, next, d) && r.tracked == d.tracked + [x] && Stems(previous, next, x)
    requires x.pid != 0 && x.state != NotRunning
    requires (x.generation == d.next && r.next == d.next + 1) || (x.generation < next && r.next == d.next)
    ensures Numbered(previous, next, r)
  {
    forall i | 0 <= i < |r.tracked| ensures Stems(previous, next, r.tracked[i]) {
      assert i < |d.tracked| ==> Stems(previous, next, d.tracked[i]);
    }
  }

  lemma {:induction false} ArriveNumbered(previous: seq<Info>, next: nat, d: Diff, item: Presence)
    requires Numbered(previous, next, d) && HandedOut(previous, next)
    ensures Numbered(previous, next, Arrive(previous, d, item))
  {
    if item.pid != 0 {
      var r := Arrive(previous, d, item);
      var x := r.tracked[|d.tracked|];
      var prev := Tracked(previous, PresenceKey(item));
      if prev.Some? && !Restarted(prev.value, item) {
        assert GoesOn(prev.value, x);
      }
      AddNumbered(previous, next, d, x, r);
    }
  }

  lemma {:induction false} ArrivalsNumbered(previous: seq<Info>, presence: seq<Presence>, next: nat)
    requires HandedOut(previous, next)
    ensures Numbered(previous, next, Arrivals(previous, presence, next))
    decreases |presence|
  {
    if presence != [] {
      var before := presence[..|presence| - 1];
      ArrivalsNumbered(previous, before, next);
      ArriveNumbered(previous, next, Arrivals(previous, before, next), presence[|presence| - 1]);
    }
  }

  lemma {:induction false} DepartNumbered(previous: seq<Info>, next: nat, presence: seq<Presence>, d: Diff, prev: Info)
    requires Numbered(previous, next, d) && prev in previous && prev.generation < next && prev.pid != 0
    ensures Numbered(previous, next, Depart(presence, d, prev))
  {
    var r := Depart(presence, d, prev);
    if r.tracked != d.tracked {
      var x := prev.(state := Exiting);
      assert GoesOn(prev, x);
      AddNumbered(previous, next, d, x, r);
    }
  }

  lemma {:induction false} PollNumbered(previous: seq<Info>, presence: seq<Presence>, next: nat, n: nat)
    requires HandedOut(previous, next) && RealEntries(previous) && n <= |previous|
    ensures Numbered(previous, next, Departures(presence, previous[..n], Arrivals(previous, presence, next)))
    decreases n
  {
    var start := Arrivals(previous, presence, next);
    if n == 0 {
      ArrivalsNumbered(previous, presence, next);
    } else {
      PollNumbered(previous, presence, next, n - 1);
      assert previous[..n][..n - 1] == previous[..n - 1];
      DepartNumbered(previous, next, presence, Departures(presence, previous[..n - 1], start), previous[n - 1]);
    }
  }

  predicate DistinctGenerations(table: seq<Info>) {
    forall i, j | 0 <= i < j < |table| :: table[i].generation != table[j].generation
  }

  predicate Sound(table: seq<Info>, next: nat) {
    TableOk(table) && HandedOut(table, next) && DistinctGenerations(table)
  }

  lemma {:induction false} InheritedGenerationsDiffer(previous: seq<Info>, next: nat, x: Info, y: Info)
    requires Sound(previous, next) && Stems(previous, next, x) && Stems(previous, next, y) && KeyOf(x) != KeyOf(y)
    requires x.generation < next
    ensures x.generation != y.generation
  {
    if y.generation < next {
      var p :| p in previous && GoesOn(p, x);
      var q :| q in previous && GoesOn(q, y);
      var i :| 0 <= i < |previous| && previous[i] == p;
      var j :| 0 <= j < |previous| && previous[j] == q;
    }
  }

  lemma {:induction false} NumberedIsDistinct(previous: seq<Info>, next: nat, d: Diff)
    requires Sound(previous, next) && Numbered(previous, next, d) && Distinct(Keys(d.tracked))
    ensures DistinctGenerations(d.tracked)
  {
    forall i, j | 0 <= i < j < |d.tracked| ensures d.tracked[i].generation != d.tracked[j].generation {
      if d.tracked[i].generation < next {
        assert Keys(d.tracked)[i] != Keys(d.tracked)[j];
        assert Stems(previous, next, d.tracked[i]) && Stems(previous, next, d.tracked[j]);
        InheritedGenerationsDiffer(previous, next, d.tracked[i], d.tracked[j]);
      }
    }
  }

  /** A poll that finds no process twice keeps the table sound and never takes a generation back. */
  lemma {:induction false} PollKeepsSound(previous: seq<Info>, presence: seq<Presence>, next: nat)
    requires Sound(previous, next) && Distinct(Found(presence))
    ensures var d := Poll(previous, presence, next);
            Sound(d.tracked, d.next) && next <= d.next && AllStem(previous, next, d.tracked)
  {
    PollNumbered(previous, presence, next, |previous|);
    assert previous[..|previous|] == previous;
    KeysStayDistinctIff(previous, presence, next);
    NumberedIsDistinct(previous, next, Poll(previous, presence, next));
  }

  // ---------- runs ----------

  /** What happens to a watcher between two calls of SetRules; starting it clears the table but not the count. */
  datatype Event = Polled(presence: seq<Presence>) | PollFailed | Started

  datatype Memory = Memory(tracked: seq<Info>, next: nat)

  const BLANK := Memory([], 1)

  function Step(m: Memory, e: Event): Memory {
    match e
    case Polled(presence) => var d := Poll(m.tracked, presence, m.next); Memory(d.tracked, d.next)
    case PollFailed => m
    case Started => m.(tracked := [])
  }

  class ProcessWatcher {
    var tracked: seq<Info>
    var nextGeneration: nat
    var working: bool

    ghost function State(): Memory reads this { Memory(tracked, nextGeneration) }

    constructor ()
      ensures State() == BLANK && !working
    {
      tracked, nextGeneration, working := [], 1, false;
    }

    /** `built` answers whether the rules could be built from the configuration. */
    method SetRules(built: bool) returns (ok: bool)
      modifies this`tracked, this`nextGeneration
      ensures ok == built && State() == if built then BLANK else old(State())
    {
      if !built { return false; }
      tracked, nextGeneration := [], 1;
      return true;
    }

    /** Nothing happens if the polling thread is there already; `spawned` answers whether it can be made. */
    method Start(spawned: bool) returns (ok: bool)
      modifies this`tracked, this`working
      ensures if old(working) then ok && State() == old(State()) && working else State() == Step(old(State()), Started) && ok == working == spawned
      ensures !old(working) ==> tracked == [] && nextGeneration == old(nextGeneration)
    {
      if working { return true; }
      tracked := [];
      working := spawned;
      return spawned;
    }

    method Stop()
      modifies this`working
      ensures !working
    {
      working := false;
    }

    /** `found` is what enumeration and rule matching deliver, or None if enumeration fails. */
    method PollOnce(found: Option<seq<Presence>>) returns (r: Option<seq<Transition>>)
      modifies this`tracked, this`nextGeneration
      ensures State() == Step(old(State()), if found.Some? then Polled(found.value) else PollFailed)
      ensures found.None? ==> State() == old(State())
      ensures r == if found.Some? then Some(Poll(old(tracked), found.value, old(nextGeneration)).transitions) else None
    {
      if found.None? { return None; }
      var d := DiffProcessPresence(tracked, found.value, nextGeneration);
      tracked, nextGeneration := d.tracked, d.next;
      return Some(d.transitions);
    }
  }

  /** The watcher after some events. */
  function After(run: seq<Event>): Memory {
    if run == [] then BLANK else Step(After(run[..|run| - 1]), run[|run| - 1])
  }

  predicate NoDoubles(run: seq<Event>) {
    forall i | 0 <= i < |run| :: run[i].Polled? ==> Distinct(Found(run[i].presence))
  }

  predicate TimesKnown(presence: seq<Presence>) {
    forall i | 0 <= i < |presence| :: presence[i].creation != 0
  }

  predicate TimesAlwaysKnown(run: seq<Event>) {
    forall i | 0 <= i < |run| :: run[i].Polled? ==> TimesKnown(run[i].presence)
  }

  /** One event keeps the table sound; its entries are new lifecycles or go on from before. */
  lemma {:induction false} StepKeepsSound(m: Memory, e: Event)
    requires Sound(m.tracked, m.next) && (e.Polled? ==> Distinct(Found(e.presence)))
    ensures var r := Step(m, e); Sound(r.tracked, r.next) && m.next <= r.next && AllStem(m.tracked, m.next, r.tracked)
  {
    if e.Polled? {
      PollKeepsSound(m.tracked, e.presence, m.next);
    } else if e.PollFailed? {
      forall i | 0 <= i < |m.tracked| ensures Stems(m.tracked, m.next, m.tracked[i]) {
        assert GoesOn(m.tracked[i], m.tracked[i]);
      }
    }
  }

  lemma {:induction false} RunIsSound(run: seq<Event>)
    requires NoDoubles(run)
    ensures Sound(After(run).tracked, After(run).next)
    decreases |run|
  {
    if run != [] {
      var n := |run| - 1;
      RunIsSound(run[..n]);
      var before := After(run[..n]);
      StepKeepsSound(before, run[n]);
    }
  }

  predicate KnownTable(table: seq<Info>) {
    forall i | 0 <= i < |table| :: table[i].creation != 0
  }

  lemma {:induction false} ArrivalsKnown(previous: seq<Info>, presence: seq<Presence>, next: nat)
    requires TimesKnown(presence)
    ensures KnownTable(Arrivals(previous, presence, next).tracked)
    decreases |presence|
  {
    if presence != [] { ArrivalsKnown(previous, presence[..|presence| - 1], next); }
  }

  lemma {:induction false} DeparturesKnown(presence: seq<Presence>, previous: seq<Info>, start: Diff)
    requires KnownTable(previous) && KnownTable(start.tracked)
    ensures KnownTable(Departures(presence, previous, start).tracked)
    decreases |previous|
  {
    if previous != [] { DeparturesKnown(presence, previous[..|previous| - 1], start); }
  }

  lemma {:induction false} RunIsKnown(run: seq<Event>)
    requires TimesAlwaysKnown(run)
    ensures KnownTable(After(run).tracked)
    decreases |run|
  {
    if run != [] {
      var n := |run| - 1;
      RunIsKnown(run[..n]);
      var before := After(run[..n]);
      if run[n].Polled? {
        var presence := run[n].presence;
        ArrivalsKnown(before.tracked, presence, before.next);
        DeparturesKnown(presence, before.tracked, Arrivals(before.tracked, presence, before.next));
      }
    }
  }

  lemma {:induction false} GenerationsOnlyGrow(run: seq<Event>, i: nat)
    requires NoDoubles(run) && i <= |run|
    ensures After(run[..i]).next <= After(run).next
    decreases |run|
  {
    var n := |run| - 1;
    if i > n {
      assert run[..i] == run;
    } else {
      GenerationsOnlyGrow(run[..n], i);
      assert run[..n][..i] == run[..i];
      RunIsSound(run[..n]);
      var before := After(run[..n]);
      StepKeepsSound(before, run[n]);
    }
  }

  /** An entry of the last table with a generation from before goes on from an entry of the table before. */
  lemma {:induction false} OldGenerationGoesOn(run: seq<Event>, b: Info) returns (p: Info)
    requires run != [] && NoDoubles(run) && b in After(run).tracked
    requires b.generation < After(run[..|run| - 1]).next
    ensures p in After(run[..|run| - 1]).tracked && GoesOn(p, b)
  {
    var n := |run| - 1;
    RunIsSound(run[..n]);
    var before := After(run[..n]);
    StepKeepsSound(before, run[n]);
    assert Stems(before.tracked, before.next, b);
    p :| p in before.tracked && GoesOn(p, b);
  }

  /**
    A generation names one lifecycle: two entries with the same generation, from whichever moments of
    a run, have the same key, and the same creation time if creation times are always known.
   */
  lemma {:induction false} GenerationNamesOneLifecycle(run: seq<Event>, i: nat, a: Info, b: Info)
    requires NoDoubles(run) && i <= |run|
    requires a in After(run[..i]).tracked && b in After(run).tracked && a.generation == b.generation
    ensures KeyOf(a) == KeyOf(b)
    ensures TimesAlwaysKnown(run) ==> a.creation == b.creation
    decreases |run|
  {
    var n := |run| - 1;
    if i > n {
      assert run[..i] == run;
      RunIsSound(run);
    } else {
      RunIsSound(run[..i]);
      GenerationsOnlyGrow(run[..n], i);
      assert run[..n][..i] == run[..i];
      var p := OldGenerationGoesOn(run, b);
      GenerationNamesOneLifecycle(run[..n], i, a, p);
      if TimesAlwaysKnown(run) {
        RunIsKnown(run);
        RunIsKnown(run[..n]);
      }
    }
  }

  // ---------- when a generation keeps its creation time ----------

  /** No tracked process that is found again turns from a known to an unknown creation time or back. */
  predicate SteadyTimes(table: seq<Info>, presence: seq<Presence>) {
    forall i | 0 <= i < |presence| && presence[i].pid != 0 :: SteadyItem(table, presence[i])
  }

  predicate SteadyItem(table: seq<Info>, item: Presence) {
    var prev := Tracked(table, PresenceKey(item));
    prev.Some? ==> (prev.value.creation == 0 <==> item.creation == 0)
  }

  /** Entries of two tables that share a generation share the creation time. */
  ghost predicate TimesAgree(a: seq<Info>, b: seq<Info>) {
    forall x, y | x in a && y in b && x.generation == y.generation :: x.creation == y.creation
  }

  /** The entry a found process gets carries on a lifecycle with another creation time exactly when its time is not steady. */
  lemma {:induction false} ArriveKeepsTimeIff(previous: seq<Info>, d: Diff, item: Presence)
    requires item.pid != 0 && HandedOut(previous, d.next)
    ensures var x := Arrive(previous, d, item).tracked;
            && |x| == |d.tracked| + 1
            && (SteadyItem(previous, item) <==> forall p | Tracked(previous, PresenceKey(item)) == Some(p) && p.generation == x[|d.tracked|].generation ::
                  p.creation == x[|d.tracked|].creation)
  {
    var prev := Tracked(previous, PresenceKey(item));
    if prev.Some? {
      var i :| 0 <= i < |previous| && previous[i] == prev.value;
      assert previous[i].generation < d.next;
    }
  }

  /** Every entry of the first pass stands for a process found. */
  lemma {:induction false} ArrivalIsFound(previous: seq<Info>, presence: seq<Presence>, next: nat, x: Info) returns (i: nat)
    requires x in Arrivals(previous, presence, next).tracked
    ensures i < |presence| && presence[i].pid != 0 && KeyOf(x) == PresenceKey(presence[i]) && x.creation == presence[i].creation
    decreases |presence|
  {
    var n := |presence| - 1;
    var d := Arrivals(previous, presence[..n], next);
    if x in d.tracked { i := ArrivalIsFound(previous, presence[..n], next, x); } else { i := n; }
  }

  /** Every entry of the table is of the first pass or of the old table, with its creation time. */
  lemma {:induction false} EntryIsFoundOrKept(previous: seq<Info>, presence: seq<Presence>, start: Diff, x: Info)
    requires x in Departures(presence, previous, start).tracked
    ensures x in start.tracked || exists p | p in previous :: KeyOf(p) == KeyOf(x) && p.generation == x.generation && p.creation == x.creation
    decreases |previous|
  {
    if previous != [] {
      var n := |previous| - 1;
      assert previous[n] in previous;
      if x in Departures(presence, previous[..n], start).tracked { EntryIsFoundOrKept(previous[..n], presence, start, x); }
    }
  }

  lemma {:induction false} GenerationFindsItsEntry(table: seq<Info>, next: nat, p: Info, q: Info)
    requires Sound(table, next) && p in table && q in table && p.generation == q.generation
    ensures p == q
  {
    var i :| 0 <= i < |table| && table[i] == p;
    var j :| 0 <= j < |table| && table[j] == q;
  }

  lemma {:induction false} SteadyPollKeepsTimes(previous: seq<Info>, presence: seq<Presence>, next: nat, p: Info, x: Info)
    requires Sound(previous, next) && Distinct(Found(presence)) && SteadyTimes(previous, presence)
    requires p in previous && x in Poll(previous, presence, next).tracked && p.generation == x.generation
    ensures p.creation == x.creation
  {
    var start := Arrivals(previous, presence, next);
    EntryIsFoundOrKept(previous, presence, start, x);
    if x in start.tracked {
      var i := ArrivalIsFound(previous, presence, next, x);
      assert SteadyItem(previous, presence[i]);
      ContinuingEntryIsTracked(previous, presence, next, p, x);
    } else {
      var q :| q in previous && KeyOf(q) == KeyOf(x) && q.generation == x.generation && q.creation == x.creation;
      GenerationFindsItsEntry(previous, next, p, q);
    }
  }

  /** An entry with an old generation goes on from the entry tracked under its key. */
  lemma {:induction false} ContinuingEntryIsTracked(previous: seq<Info>, presence: seq<Presence>, next: nat, p: Info, x: Info)
    requires Sound(previous, next) && Distinct(Found(presence))
    requires p in previous && x in Poll(previous, presence, next).tracked && p.generation == x.generation
    ensures Tracked(previous, KeyOf(x)) == Some(p) && GoesOn(p, x)
  {
    PollKeepsSound(previous, presence, next);
    var k :| 0 <= k < |previous| && previous[k] == p;
    assert Stems(previous, next, x);
    var q :| q in previous && GoesOn(q, x);
    GenerationFindsItsEntry(previous, next, p, q);
    TrackedIs(previous, k);
  }

  /** A found process that is tracked and not restarted appears with the old generation and its present time. */
  lemma {:induction false} FoundProcessGoesOn(previous: seq<Info>, presence: seq<Presence>, next: nat, i: nat) returns (x: Info)
    requires i < |presence| && presence[i].pid != 0 && Tracked(previous, PresenceKey(presence[i])).Some?
    requires !Restarted(Tracked(previous, PresenceKey(presence[i])).value, presence[i])
    ensures x in Arrivals(previous, presence, next).tracked
    ensures x.generation == Tracked(previous, PresenceKey(presence[i])).value.generation && x.creation == presence[i].creation
    decreases |presence|
  {
    var n := |presence| - 1;
    if i < n {
      x := FoundProcessGoesOn(previous, presence[..n], next, i);
    } else {
      var r := Arrivals(previous, presence, next).tracked;
      x := r[|r| - 1];
    }
  }

  lemma {:induction false} DeparturesKeepArrivals(presence: seq<Presence>, previous: seq<Info>, start: Diff, x: Info)
    requires x in start.tracked
    ensures x in Departures(presence, previous, start).tracked
    decreases |previous|
  {
    if previous != [] { DeparturesKeepArrivals(presence, previous[..|previous| - 1], start, x); }
  }

  /** A poll keeps the creation time of every lifecycle that goes on if and only if the times are steady. */
  lemma {:induction false} PollKeepsTimesIffSteady(previous: seq<Info>, presence: seq<Presence>, next: nat)
    requires Sound(previous, next) && Distinct(Found(presence))
    ensures TimesAgree(previous, Poll(previous, presence, next).tracked) <==> SteadyTimes(previous, presence)
  {
    var table := Poll(previous, presence, next).tracked;
    if SteadyTimes(previous, presence) {
      forall p, x | p in previous && x in table && p.generation == x.generation ensures p.creation == x.creation {
        SteadyPollKeepsTimes(previous, presence, next, p, x);
      }
    } else {
      var i :| 0 <= i < |presence| && presence[i].pid != 0 && !SteadyItem(previous, presence[i]);
      var prev := Tracked(previous, PresenceKey(presence[i])).value;
      var x := FoundProcessGoesOn(previous, presence, next, i);
      DeparturesKeepArrivals(presence, previous, Arrivals(previous, presence, next), x);
      assert prev in previous && x in table && prev.generation == x.generation && prev.creation != x.creation;
    }
  }

  /** Every poll of a run finds steady times. */
  ghost predicate SteadyRun(run: seq<Event>) { forall i | 0 <= i < |run| :: SteadyAt(run, i) }

  ghost predicate SteadyAt(run: seq<Event>, i: nat)
    requires i < |run|
  {
    run[i].Polled? ==> SteadyTimes(After(run[..i]).tracked, run[i].presence)
  }

  /** Throughout a run every generation has one creation time. */
  ghost predicate OneTimePerGeneration(run: seq<Event>) {
    forall i, j | 0 <= i <= j <= |run| :: TimesAgree(After(run[..i]).tracked, After(run[..j]).tracked)
  }

  lemma {:induction false} StepKeepsTimes(m: Memory, e: Event, p: Info, x: Info)
    requires Sound(m.tracked, m.next) && (e.Polled? ==> Distinct(Found(e.presence)) && SteadyTimes(m.tracked, e.presence))
    requires p in m.tracked && x in Step(m, e).tracked && p.generation == x.generation
    ensures p.creation == x.creation
  {
    if e.Polled? {
      SteadyPollKeepsTimes(m.tracked, e.presence, m.next, p, x);
    } else {
      GenerationFindsItsEntry(m.tracked, m.next, p, x);
    }
  }

  lemma {:induction false} AfterSnoc(run: seq<Event>, j: nat)
    requires j < |run|
    ensures After(run[..j + 1]) == Step(After(run[..j]), run[j])
  {
    assert run[..j + 1][..j] == run[..j];
  }

  lemma {:induction false} NoDoublesBefore(run: seq<Event>, n: nat)
    requires NoDoubles(run) && n <= |run|
    ensures NoDoubles(run[..n])
  {
  }

  lemma {:induction false} OldGenerationsAreBelow(run: seq<Event>, i: nat, n: nat, a: Info)
    requires NoDoubles(run) && i <= n <= |run| && a in After(run[..i]).tracked
    ensures a.generation < After(run[..n]).next
  {
    NoDoublesBefore(run, i);
    NoDoublesBefore(run, n);
    RunIsSound(run[..i]);
    GenerationsOnlyGrow(run[..n], i);
    assert run[..n][..i] == run[..i];
    var table := After(run[..i]).tracked;
    var k :| 0 <= k < |table| && table[k] == a;
  }

  lemma {:induction false} GoesOnFrom(run: seq<Event>, n: nat, b: Info) returns (p: Info)
    requires NoDoubles(run) && n < |run| && b in After(run[..n + 1]).tracked && b.generation < After(run[..n]).next
    ensures p in After(run[..n]).tracked && GoesOn(p, b)
  {
    NoDoublesBefore(run, n + 1);
    assert run[..n + 1][..n] == run[..n];
    p := OldGenerationGoesOn(run[..n + 1], b);
  }

  /** The entry before the last event that an entry with an older generation goes on from, with its time. */
  lemma {:induction false} SteadyStepBack(run: seq<Event>, i: nat, n: nat, a: Info, b: Info) returns (p: Info)
    requires NoDoubles(run) && SteadyRun(run) && i <= n < |run|
    requires a in TableAt(run, i) && b in TableAt(run, n + 1) && a.generation == b.generation
    ensures p in TableAt(run, n) && p.generation == b.generation && p.creation == b.creation
  {
    OldGenerationsAreBelow(run, i, n, a);
    p := GoesOnFrom(run, n, b);
    NoDoublesBefore(run, n);
    RunIsSound(run[..n]);
    AfterSnoc(run, n);
    assert SteadyAt(run, n);
    StepKeepsTimes(After(run[..n]), run[n], p, b);
  }

  lemma {:induction false} OneEntryPerGeneration(run: seq<Event>, i: nat, a: Info, b: Info)
    requires NoDoubles(run) && i <= |run| && a in TableAt(run, i) && b in TableAt(run, i) && a.generation == b.generation
    ensures a == b
  {
    NoDoublesBefore(run, i);
    RunIsSound(run[..i]);
    GenerationFindsItsEntry(After(run[..i]).tracked, After(run[..i]).next, a, b);
  }

  /** The table after the first `i` events. */
  ghost function TableAt(run: seq<Event>, i: nat): seq<Info>
    requires i <= |run|
  {
    After(run[..i]).tracked
  }

  lemma {:induction false} SteadyRunKeepsTimes(run: seq<Event>, i: nat, j: nat, a: Info, b: Info)
    requires NoDoubles(run) && SteadyRun(run) && i <= j <= |run|
    requires a in TableAt(run, i) && b in TableAt(run, j) && a.generation == b.generation
    ensures a.creation == b.creation
    decreases j
  {
    if i == j {
      OneEntryPerGeneration(run, i, a, b);
    } else {
      var p := SteadyStepBack(run, i, j - 1, a, b);
      SteadyRunKeepsTimes(run, i, j - 1, a, p);
    }
  }

  /**
    The exact condition, to be checked before each poll: over every run a generation has one creation
    time throughout if and only if no tracked process that is found again changes between a known
    and an unknown time.
   */
  lemma {:induction false} OneTimePerGenerationIffSteady(run: seq<Event>)
    requires NoDoubles(run)
    ensures OneTimePerGeneration(run) <==> SteadyRun(run)
  {
    if SteadyRun(run) {
      forall i, j | 0 <= i <= j <= |run| ensures TimesAgree(After(run[..i]).tracked, After(run[..j]).tracked) {
        forall a, b | a in After(run[..i]).tracked && b in After(run[..j]).tracked && a.generation == b.generation ensures a.creation == b.creation {
          SteadyRunKeepsTimes(run, i, j, a, b);
        }
      }
    } else {
      var i :| 0 <= i < |run| && !SteadyAt(run, i);
      NoDoublesBefore(run, i);
      RunIsSound(run[..i]);
      PollKeepsTimesIffSteady(After(run[..i]).tracked, run[i].presence, After(run[..i]).next);
      AfterSnoc(run, i);
      assert !TimesAgree(After(run[..i]).tracked, After(run[..i + 1]).tracked);
    }
  }

  /** With one unknown time in between, a restart goes unseen: both processes share a generation. */
  lemma {:induction false} UnknownTimeHidesARestart(gameId: string, pid: nat, details: Details, first: nat, second: nat)
    requires pid != 0 && first != 0 && second != 0 && first != second
    ensures var seen := (t: nat) => Polled([Presence(gameId, pid, details, t)]);
            var polls := [seen(first), seen(0), seen(second)];
            && After(polls[..1]).tracked == [Info(gameId, pid, details, Starting, 1, first)]
            && After(polls).tracked == [Info(gameId, pid, details, Running, 1, second)]
  {
    var p1, p2, p3 := Presence(gameId, pid, details, first), Presence(gameId, pid, details, 0), Presence(gameId, pid, details, second);
    var t1 := Info(gameId, pid, details, Starting, 1, first);
    var t2 := Info(gameId, pid, details, Running, 1, 0);
    SinglePoll([], p1, 1);
    SinglePoll([t1], p2, 2);
    SinglePoll([t2], p3, 2);
    var polls := [Polled([p1]), Polled([p2]), Polled([p3])];
    assert polls[..1] == [Polled([p1])] && polls[..1][..0] == [];
    assert polls[..2][..1] == polls[..1];
  }

  /** A poll that finds one process, over a table with at most that process. */
  lemma {:induction false} SinglePoll(table: seq<Info>, item: Presence, next: nat)
    requires |table| <= 1 && (table != [] ==> KeyOf(table[0]) == PresenceKey(item))
    ensures Poll(table, [item], next) == Arrive(table, Diff([], [], next), item)
  {
    var d := Arrive(table, Diff([], [], next), item);
    assert [item][..0] == [] && Arrivals(table, [], next) == Diff([], [], next);
    assert Arrivals(table, [item], next) == d;
    assert PresenceKey([item][0]) == PresenceKey(item);
    if table != [] {
      assert table[..0] == [] && Departures([item], [], d) == d;
    }
  }
}
