/**
  Switching the power scheme under a write-ahead record (source/power/power_scheme.cpp and the
  recover-then-apply order of source/main.cpp). Every operation is given as the sequence of
  machine states it passes through, so a crash is any prefix of that sequence. The backend is
  faithful: a successful set takes effect, a successful query tells the truth.
 */
module PowerSchemeRecovery {
  import opened Text
  import opened PowerSchemeRecord

  /** The global setting and the content of the save file. */
  datatype Machine = Machine(active: string, file: Option<string>)

  function RecordOf(m: Machine): Option<Record> {
    match m.file case None => None case Some(content) => ParseRecord(content)
  }

  predicate IsPending(m: Machine) { RecordOf(m).Some? && RecordOf(m).value.state == Pending }

  /** Which calls into the system succeed during a switch, in the order they are made. */
  datatype SwitchFaults = SwitchFaults(getOk: bool, saveOk: bool, setOk: bool, readBackOk: bool, markOk: bool)

  datatype RollbackFaults = RollbackFaults(readOk: bool, getOk: bool, setOk: bool, readBackOk: bool, markOk: bool)

  /** Writing goes through a temporary file and an atomic replacement: all or nothing. */
  function Save(m: Machine, r: Record, ok: bool): Option<Machine> {
    if !ok || Normalize(r.saved).None? || (r.target.Some? && Normalize(r.target.value).None?) then None
    else
      var target := if r.target.Some? then Some(Normalize(r.target.value).value) else None;
      Some(m.(file := Some(RecordText(Record(Normalize(r.saved).value, target, r.state)))))
  }

  // ---------- the operations, state by state ----------

  /** The states behind the pending record. */
  function AfterPending(m1: Machine, pending: Record, g: string, f: SwitchFaults): seq<Machine> {
    if !f.setOk then []
    else
      var m2 := m1.(active := g);
      if !f.readBackOk then [m2]
      else match Save(m2, pending.(state := Applied), f.markOk)
           case None => [m2]
           case Some(m3) => [m2, m3]
  }

  /** Read the present scheme, write the pending record, switch, read back, mark applied. */
  function SwitchTrace(m: Machine, target: string, f: SwitchFaults): (ms: seq<Machine>)
    ensures ms != [] && ms[0] == m
  {
    match Normalize(target)
    case None => [m]
    case Some(t) =>
      var pending := Record(m.active, Some(t), Pending);
      if !f.getOk then [m]
      else
        match Save(m, pending, f.saveOk)
        case None => [m]
        case Some(m1) => [m, m1] + AfterPending(m1, pending, t, f)
  }

  predicate AfterPendingOk(m1: Machine, pending: Record, g: string, f: SwitchFaults) {
    f.setOk && f.readBackOk && Save(m1.(active := g), pending.(state := Applied), f.markOk).Some?
  }

  predicate SwitchOk(m: Machine, target: string, f: SwitchFaults) {
    Normalize(target).Some? && f.getOk
    && var pending := Record(m.active, Some(Normalize(target).value), Pending);
    Save(m, pending, f.saveOk).Some? && AfterPendingOk(Save(m, pending, f.saveOk).value, pending, Normalize(target).value, f)
  }

  /** A switch is reported done exactly when the schemes are GUIDs and every call on the way succeeded. */
  lemma {:induction false} SwitchOkIff(m: Machine, target: string, f: SwitchFaults)
    ensures SwitchOk(m, target, f) <==>
      Normalize(target).Some? && Normalize(m.active).Some? && f.getOk && f.saveOk && f.setOk && f.readBackOk && f.markOk
  {
    if Normalize(target).Some? { GuidIsNormal(Normalize(target).value); }
  }

  /** Set the saved scheme, read back, mark restored. */
  function RollbackTrace(m: Machine, r: Record, f: RollbackFaults): (ms: seq<Machine>)
    ensures ms != [] && ms[0] == m
  {
    match Normalize(r.saved)
    case None => [m]
    case Some(g) =>
      if !f.setOk then [m]
      else
        var m1 := m.(active := g);
        if !f.readBackOk then [m, m1]
        else
          match Save(m1, r.(state := Restored), f.markOk)
          case None => [m, m1]
          case Some(m2) => [m, m1, m2]
  }

  predicate RollbackOk(m: Machine, r: Record, f: RollbackFaults) {
    Normalize(r.saved).Some? && f.setOk && f.readBackOk && Save(m, r.(state := Restored), f.markOk).Some?
  }

  function RestoreTrace(m: Machine, f: RollbackFaults): (ms: seq<Machine>)
    ensures ms != [] && ms[0] == m
  {
    if !f.readOk || RecordOf(m).None? then [m] else RollbackTrace(m, RecordOf(m).value, f)
  }

  predicate RestoreOk(m: Machine, f: RollbackFaults) { f.readOk && RecordOf(m).Some? && RollbackOk(m, RecordOf(m).value, f) }

  datatype RecoveryAction = NoAction | RestoreToSaved | MarkNeverApplied

  /** Only a pending record is acted on; an unknown present scheme is no ground for guessing. */
  function DecideRecovery(record: Option<Record>, active: string): RecoveryAction {
    if record.None? || record.value.state != Pending then NoAction
    else
      match Normalize(active)
      case None => NoAction
      case Some(a) => if a == record.value.saved then MarkNeverApplied else RestoreToSaved
  }

  function RecoverTrace(m: Machine, f: RollbackFaults): (ms: seq<Machine>)
    ensures ms != [] && ms[0] == m
  {
    if !f.readOk || !f.getOk then [m]
    else
      match DecideRecovery(RecordOf(m), m.active)
      case NoAction => [m]
      case MarkNeverApplied =>
        (match Save(m, RecordOf(m).value.(state := Restored), f.markOk)
         case None => [m]
         case Some(m1) => [m, m1])
      case RestoreToSaved => RollbackTrace(m, RecordOf(m).value, f)
  }

  predicate RecoverOk(m: Machine, f: RollbackFaults) {
    && f.readOk && f.getOk
    && match DecideRecovery(RecordOf(m), m.active)
       case NoAction => true
       case MarkNeverApplied => Save(m, RecordOf(m).value.(state := Restored), f.markOk).Some?
       case RestoreToSaved => RollbackOk(m, RecordOf(m).value, f)
  }

  function Last(ms: seq<Machine>): Machine requires ms != [] { ms[|ms| - 1] }

  /** The apply command reads the record and recovers first if it is pending; a record it cannot read is taken for none. */
  datatype Command =
    | Apply(target: string, readOk: bool, recovery: RollbackFaults, faults: SwitchFaults)
    | Restore(rollback: RollbackFaults)
    | Recover(rollback: RollbackFaults)

  function ApplyTrace(m: Machine, target: string, readOk: bool, rf: RollbackFaults, f: SwitchFaults): (ms: seq<Machine>)
    ensures ms != [] && ms[0] == m
  {
    if readOk && IsPending(m) then
      var first := RecoverTrace(m, rf);
      if RecoverOk(m, rf) then first + SwitchTrace(Last(first), target, f)[1..] else first
    else SwitchTrace(m, target, f)
  }

  predicate ApplyOk(m: Machine, target: string, readOk: bool, rf: RollbackFaults, f: SwitchFaults) {
    if readOk && IsPending(m) then RecoverOk(m, rf) && SwitchOk(Last(RecoverTrace(m, rf)), target, f) else SwitchOk(m, target, f)
  }

  function CommandTrace(m: Machine, c: Command): (ms: seq<Machine>)
    ensures ms != [] && ms[0] == m
  {
    match c
    case Apply(target, readOk, rf, f) => ApplyTrace(m, target, readOk, rf, f)
    case Restore(rf) => RestoreTrace(m, rf)
    case Recover(rf) => RecoverTrace(m, rf)
  }

  // ---------- the operations as the program runs them ----------

  class PowerSchemes {
    var active: string
    var file: Option<string>
    ghost var history: seq<Machine>

    ghost function State(): Machine reads this { Machine(active, file) }

    /** The history ends in the present state. */
    ghost predicate Valid() reads this { history != [] && history[|history| - 1] == State() }

    constructor (a: string, f: Option<string>)
      ensures Valid() && State() == Machine(a, f) && history == [State()]
    {
      active, file := a, f;
      history := [Machine(a, f)];
    }

    method SaveRecord(r: Record, ok: bool) returns (saved: bool)
      requires Valid()
      modifies this
      ensures Valid() && active == old(active) && saved == Save(old(State()), r, ok).Some?
      ensures saved ==> State() == Save(old(State()), r, ok).value && history == old(history) + [State()]
      ensures !saved ==> State() == old(State()) && history == old(history)
    {
      var normalizedSaved := NormalizeSchemeGuid(r.saved);
      if normalizedSaved.None? { return false; }
      var normalizedTarget: Option<string> := None;
      if r.target.Some? {
        normalizedTarget := NormalizeSchemeGuid(r.target.value);
        if normalizedTarget.None? { return false; }
      }
      if !ok { return false; }
      file := Some(RecordText(Record(normalizedSaved.value, normalizedTarget, r.state)));
      history := history + [State()];
      return true;
    }

    method SetActive(guid: string)
      requires Valid()
      modifies this
      ensures Valid() && State() == old(State()).(active := guid) && history == old(history) + [State()]
    {
      active := guid;
      history := history + [State()];
    }

    /** The switch itself, once its pending record is on disk. */
    method SwitchUnderRecord(pending: Record, g: string, f: SwitchFaults) returns (ok: bool)
      requires Valid()
      modifies this
      ensures Valid() && history == old(history) + AfterPending(old(State()), pending, g, f)
      ensures State() == Last([old(State())] + AfterPending(old(State()), pending, g, f)) && ok == AfterPendingOk(old(State()), pending, g, f)
    {
      if !f.setOk { return false; }
      SetActive(g);
      if !f.readBackOk { return false; }
      if active != g { return false; }
      ok := SaveRecord(pending.(state := Applied), f.markOk);
    }

    method ApplySchemeWithRecord(target: string, f: SwitchFaults) returns (ok: bool)
      requires Valid()
      modifies this
      ensures Valid() && history == old(history) + SwitchTrace(old(State()), target, f)[1..]
      ensures State() == Last(SwitchTrace(old(State()), target, f)) && ok == SwitchOk(old(State()), target, f)
    {
      var normalized := NormalizeSchemeGuid(target);
      if normalized.None? || !f.getOk { return false; }
      var pending := Record(active, Some(normalized.value), Pending);
      var persisted := SaveRecord(pending, f.saveOk);
      if !persisted { return false; }
      ghost var m1, rest := State(), AfterPending(State(), pending, normalized.value, f);
      ok := SwitchUnderRecord(pending, normalized.value, f);
      TailOfConcat([old(State()), m1], rest);
      Associate(old(history), [m1], rest);
      assert [old(State()), m1][1..] == [m1];
    }

    method Rollback(r: Record, f: RollbackFaults) returns (ok: bool)
      requires Valid()
      modifies this
      ensures Valid() && history == old(history) + RollbackTrace(old(State()), r, f)[1..]
      ensures State() == Last(RollbackTrace(old(State()), r, f)) && ok == RollbackOk(old(State()), r, f)
    {
      var normalized := NormalizeSchemeGuid(r.saved);
      if normalized.None? || !f.setOk { return false; }
      SetActive(normalized.value);
      if !f.readBackOk { return false; }
      if active != normalized.value { return false; }
      ok := SaveRecord(r.(state := Restored), f.markOk);
    }

    method ReadRecord() returns (record: Option<Record>)
      ensures record == RecordOf(State())
    {
      if file.None? { return None; }
      record := ParseSavedSchemeRecord(file.value);
    }

    method RestoreSchemeWithRecord(f: RollbackFaults) returns (ok: bool)
      requires Valid()
      modifies this
      ensures Valid() && history == old(history) + RestoreTrace(old(State()), f)[1..]
      ensures State() == Last(RestoreTrace(old(State()), f)) && ok == RestoreOk(old(State()), f)
    {
      if !f.readOk { return false; }
      var record := ReadRecord();
      if record.None? { return false; }
      ok := Rollback(record.value, f);
    }

    method RecoverPendingScheme(f: RollbackFaults) returns (ok: bool)
      requires Valid()
      modifies this
      ensures Valid() && history == old(history) + RecoverTrace(old(State()), f)[1..]
      ensures State() == Last(RecoverTrace(old(State()), f)) && ok == RecoverOk(old(State()), f)
    {
      if !f.readOk { return false; }
      var record := ReadRecord();
      if !f.getOk { return false; }
      var action := DecideRecovery(record, active);
      if action == NoAction { return true; }
      if action == MarkNeverApplied {
        ok := SaveRecord(record.value.(state := Restored), f.markOk);
        return;
      }
      ok := Rollback(record.value, f);
    }

    /** Roll an open switch back first; the new one is made only if that succeeds. */
    method RecoverThenSwitch(target: string, rf: RollbackFaults, f: SwitchFaults) returns (ok: bool)
      requires Valid()
      modifies this
      ensures Valid()
      ensures var first := RecoverTrace(old(State()), rf);
              var second := SwitchTrace(Last(first), target, f);
              if RecoverOk(old(State()), rf)
              then history == old(history) + first[1..] + second[1..] && State() == Last(second) && ok == SwitchOk(Last(first), target, f)
              else history == old(history) + first[1..] && State() == Last(first) && !ok
    {
      var recovered := RecoverPendingScheme(rf);
      if !recovered { return false; }
      ok := ApplySchemeWithRecord(target, f);
    }

    method ApplyCommand(target: string, readOk: bool, rf: RollbackFaults, f: SwitchFaults) returns (ok: bool)
      requires Valid()
      modifies this
      ensures Valid() && history == old(history) + ApplyTrace(old(State()), target, readOk, rf, f)[1..]
      ensures State() == Last(ApplyTrace(old(State()), target, readOk, rf, f)) && ok == ApplyOk(old(State()), target, readOk, rf, f)
    {
      var record := ReadRecord();
      if readOk && record.Some? && record.value.state == Pending {
        ok := RecoverThenSwitch(target, rf, f);
        AppendTails(old(history), RecoverTrace(old(State()), rf), SwitchTrace(Last(RecoverTrace(old(State()), rf)), target, f));
        return;
      }
      ok := ApplySchemeWithRecord(target, f);
    }
  }

  lemma {:induction false} TailOfConcat(a: seq<Machine>, b: seq<Machine>)
    requires a != []
    ensures (a + b)[1..] == a[1..] + b
  {
  }

  /** One trace after another, the second beginning where the first ends. */
  lemma {:induction false} AppendTails(before: seq<Machine>, first: seq<Machine>, second: seq<Machine>)
    requires first != [] && second != [] && second[0] == Last(first)
    ensures before + first[1..] + second[1..] == before + (first + second[1..])[1..]
    ensures Last(first + second[1..]) == Last(second)
  {
    TailOfConcat(first, second[1..]);
    Associate(before, first[1..], second[1..]);
  }

  // ---------- what must never be lost ----------

  /**
    The machine together with two facts about its past: the scheme last in force while no switch
    was open, and the scheme in force when the last pending record was written.
   */
  datatype Tracked = Tracked(m: Machine, settled: string, origin: string)

  function Advance(t: Tracked, m: Machine): Tracked {
    Tracked(m,
            if IsPending(m) then t.settled else m.active,
            if IsPending(m) && RecordOf(m) != RecordOf(t.m) then t.m.active else t.origin)
  }

  function Follow(t: Tracked, ms: seq<Machine>): Tracked
    decreases |ms|
  {
    if ms == [] then t else Follow(Advance(t, ms[0]), ms[1..])
  }

  /** A command cut off after any number of its state changes. */
  function Cut(ms: seq<Machine>, crash: nat): seq<Machine>
    requires ms != []
  {
    if crash + 1 < |ms| then ms[1..crash + 1] else ms[1..]
  }

  function Execute(t: Tracked, c: Command, crash: nat): Tracked { Follow(t, Cut(CommandTrace(t.m, c), crash)) }

  function Run(t: Tracked, steps: seq<(Command, nat)>): Tracked
    decreases |steps|
  {
    if steps == [] then t else Run(Execute(t, steps[0].0, steps[0].1), steps[1..])
  }

  ghost predicate Inv(t: Tracked) {
    && IsGuid(t.m.active)
    && (t.m.file.Some? ==> RecordOf(t.m).Some?)
    && (RecordOf(t.m).Some? ==> RecordOf(t.m).value.saved == t.origin)
    && (RecordOf(t.m).None? ==> t.m.active == t.origin)
    && (IsPending(t.m) ==> t.settled == RecordOf(t.m).value.saved
                           && (t.m.active == t.settled || RecordOf(t.m).value.target == Some(t.m.active)))
    && (!IsPending(t.m) ==> t.settled == t.m.active)
  }

  lemma {:induction false} SavedReads(m: Machine, r: Record, ok: bool)
    requires RecordIsValid(r)
    ensures Save(m, r, ok).Some? == ok
    ensures ok ==> Save(m, r, ok).value.active == m.active && RecordOf(Save(m, r, ok).value) == Some(r)
  {
    GuidIsNormal(r.saved);
    if r.target.Some? { GuidIsNormal(r.target.value); }
    RecordRoundTrip(r);
  }

  /** Every state on the way keeps the invariant. */
  ghost predicate KeepsInv(t: Tracked, ms: seq<Machine>) {
    forall k | 0 <= k <= |ms| :: Inv(Follow(t, ms[..k]))
  }

  lemma {:induction false} FollowNothing(t: Tracked)
    ensures Follow(t, []) == t
  {
  }

  lemma {:induction false} FollowMore(t: Tracked, m: Machine, ms: seq<Machine>)
    ensures Follow(t, [m] + ms) == Follow(Advance(t, m), ms)
  {
    assert ([m] + ms)[1..] == ms;
  }

  lemma {:induction false} FollowConcat(t: Tracked, a: seq<Machine>, b: seq<Machine>)
    ensures Follow(t, a + b) == Follow(Follow(t, a), b)
    decreases |a|
  {
    if a == [] {
      assert a + b == b;
    } else {
      FollowConcat(Advance(t, a[0]), a[1..], b);
      assert (a + b)[0] == a[0] && (a + b)[1..] == a[1..] + b;
    }
  }

  lemma {:induction false} KeepsInvConcat(t: Tracked, a: seq<Machine>, b: seq<Machine>)
    requires KeepsInv(t, a) && KeepsInv(Follow(t, a), b)
    ensures KeepsInv(t, a + b)
  {
    forall k | 0 <= k <= |a + b| ensures Inv(Follow(t, (a + b)[..k])) {
      if k <= |a| {
        assert (a + b)[..k] == a[..k];
      } else {
        assert (a + b)[..k] == a + b[..k - |a|];
        FollowConcat(t, a, b[..k - |a|]);
      }
    }
  }

  lemma {:induction false} FollowEnds(t: Tracked, ms: seq<Machine>)
    ensures Follow(t, ms).m == if ms == [] then t.m else ms[|ms| - 1]
    decreases |ms|
  {
    if ms != [] { FollowEnds(Advance(t, ms[0]), ms[1..]); }
  }

  lemma {:induction false} KeepsMore(t: Tracked, m: Machine, ms: seq<Machine>)
    requires Inv(t) && KeepsInv(Advance(t, m), ms)
    ensures KeepsInv(t, [m] + ms)
  {
    forall k | 0 <= k <= |[m] + ms| ensures Inv(Follow(t, ([m] + ms)[..k])) {
      if k == 0 {
        FollowNothing(t);
      } else {
        assert ([m] + ms)[..k] == [m] + ms[..k - 1];
        FollowMore(t, m, ms[..k - 1]);
      }
    }
  }

  lemma {:induction false} KeepsNone(t: Tracked)
    requires Inv(t)
    ensures KeepsInv(t, [])
  {
    FollowNothing(t);
  }

  lemma {:induction false} KeepsOne(t: Tracked, m: Machine)
    requires Inv(t) && Inv(Advance(t, m))
    ensures KeepsInv(t, [m])
  {
    KeepsNone(Advance(t, m));
    KeepsMore(t, m, []);
    assert [m] + [] == [m];
  }

  lemma {:induction false} KeepsTwo(t: Tracked, m1: Machine, m2: Machine)
    requires Inv(t) && Inv(Advance(t, m1)) && Inv(Advance(Advance(t, m1), m2))
    ensures KeepsInv(t, [m1, m2])
  {
    KeepsOne(Advance(t, m1), m2);
    KeepsMore(t, m1, [m2]);
    assert [m1] + [m2] == [m1, m2];
  }

  // ---------- single state changes ----------

  /** A pending record may be written whenever the scheme it saves is the settled one. */
  lemma {:induction false} WritePending(t: Tracked, g: string)
    requires Inv(t) && IsGuid(g) && t.settled == t.m.active
    ensures var r := Record(t.m.active, Some(g), Pending);
            Save(t.m, r, true).Some? && Inv(Advance(t, Save(t.m, r, true).value))
  {
    SavedReads(t.m, Record(t.m.active, Some(g), Pending), true);
  }

  lemma {:induction false} SwitchUnderPending(t: Tracked, g: string)
    requires Inv(t) && IsPending(t.m) && IsGuid(g) && RecordOf(t.m).value.target == Some(g)
    ensures Inv(Advance(t, t.m.(active := g)))
  {
  }

  /** Any record on disk may be closed: marked applied, or marked restored, with the scheme it saves unchanged. */
  lemma {:induction false} CloseRecord(t: Tracked, r: Record, state: SaveState)
    requires Inv(t) && RecordOf(t.m) == Some(r) && state != Pending
    ensures var s := r.(state := state);
            && Save(t.m, s, true).Some?
            && Inv(Advance(t, Save(t.m, s, true).value)) && RecordOf(Save(t.m, s, true).value) == Some(s)
  {
    ParsedRecordIsValid(t.m.file.value);
    SavedReads(t.m, r.(state := state), true);
  }

  lemma {:induction false} SetToSaved(t: Tracked, r: Record)
    requires Inv(t) && RecordOf(t.m) == Some(r)
    ensures IsGuid(r.saved) && Normalize(r.saved) == Some(r.saved) && Inv(Advance(t, t.m.(active := r.saved)))
  {
    ParsedRecordIsValid(t.m.file.value);
    GuidIsNormal(r.saved);
  }

  // ---------- whole operations ----------

  lemma {:induction false} RollbackTraceIs(m: Machine, r: Record, f: RollbackFaults)
    requires Normalize(r.saved) == Some(r.saved)
    ensures var m1 := m.(active := r.saved);
            RollbackTrace(m, r, f)[1..] ==
              if !f.setOk then []
              else if !f.readBackOk || Save(m1, r.(state := Restored), f.markOk).None? then [m1]
              else [m1] + [Save(m1, r.(state := Restored), f.markOk).value]
  {
  }

  lemma {:induction false} RollbackKeeps(t: Tracked, r: Record, f: RollbackFaults)
    requires Inv(t) && RecordOf(t.m) == Some(r)
    ensures KeepsInv(t, RollbackTrace(t.m, r, f)[1..])
    ensures RollbackOk(t.m, r, f) ==> Last(RollbackTrace(t.m, r, f)).active == r.saved
    ensures RollbackOk(t.m, r, f) ==> RecordOf(Last(RollbackTrace(t.m, r, f))) == Some(r.(state := Restored))
  {
    SetToSaved(t, r);
    RollbackTraceIs(t.m, r, f);
    KeepsNone(t);
    if f.setOk {
      var m1 := t.m.(active := r.saved);
      var t1 := Advance(t, m1);
      CloseRecord(t1, r, Restored);
      KeepsOne(t, m1);
      if f.readBackOk && f.markOk {
        var m2 := Save(m1, r.(state := Restored), true).value;
        KeepsTwo(t, m1, m2);
        assert [m1] + [m2] == [m1, m2];
      }
    }
  }

  lemma {:induction false} MarkKeeps(t: Tracked, f: RollbackFaults)
    requires Inv(t) && f.readOk && f.getOk && IsPending(t.m) && t.m.active == RecordOf(t.m).value.saved
    ensures KeepsInv(t, RecoverTrace(t.m, f)[1..])
  {
    var r := RecordOf(t.m).value;
    GuidIsNormal(t.m.active);
    CloseRecord(t, r, Restored);
    if f.markOk {
      var m1 := Save(t.m, r.(state := Restored), true).value;
      KeepsOne(t, m1);
      assert RecoverTrace(t.m, f)[1..] == [m1];
    }
  }

  lemma {:induction false} RecoverKeeps(t: Tracked, f: RollbackFaults)
    requires Inv(t)
    ensures KeepsInv(t, RecoverTrace(t.m, f)[1..])
  {
    GuidIsNormal(t.m.active);
    if f.readOk && f.getOk && IsPending(t.m) {
      var r := RecordOf(t.m).value;
      if t.m.active == r.saved { MarkKeeps(t, f); } else { RollbackKeeps(t, r, f); }
    }
  }

  /** After the pending record is written, every continuation of a switch keeps the invariant. */
  lemma {:induction false} SwitchKeeps(t: Tracked, target: string, f: SwitchFaults)
    requires Inv(t) && t.settled == t.m.active
    ensures KeepsInv(t, SwitchTrace(t.m, target, f)[1..])
  {
    var ms := SwitchTrace(t.m, target, f);
    if Normalize(target).Some? && f.getOk {
      var g := Normalize(target).value;
      WritePending(t, g);
      if f.saveOk {
        var pending := Record(t.m.active, Some(g), Pending);
        SavedReads(t.m, pending, true);
        var m1 := Save(t.m, pending, true).value;
        AfterPendingKeeps(Advance(t, m1), pending, g, f);
        KeepsMore(t, m1, AfterPending(m1, pending, g, f));
        TailOfConcat([t.m, m1], AfterPending(m1, pending, g, f));
        assert [t.m, m1][1..] == [m1];
      }
    }
  }

  lemma {:induction false} AfterPendingKeeps(t: Tracked, pending: Record, g: string, f: SwitchFaults)
    requires Inv(t) && RecordOf(t.m) == Some(pending) && pending.state == Pending && pending.target == Some(g) && IsGuid(g)
    ensures KeepsInv(t, AfterPending(t.m, pending, g, f))
  {
    SwitchUnderPending(t, g);
    var m2 := t.m.(active := g);
    var t2 := Advance(t, m2);
    CloseRecord(t2, pending, Applied);
    KeepsOne(t, m2);
    if f.setOk && f.readBackOk && f.markOk {
      KeepsTwo(t, m2, Save(m2, pending.(state := Applied), true).value);
    }
  }

  /** A completed recovery leaves no pending record behind: it is at the saved scheme, or the record was closed already. */
  lemma {:induction false} RecoverCompletes(t: Tracked, f: RollbackFaults)
    requires Inv(t) && RecoverOk(t.m, f)
    ensures var m := Last(RecoverTrace(t.m, f));
            && !IsPending(m)
            && (IsPending(t.m) ==> m.active == t.settled && RecordOf(m) == Some(RecordOf(t.m).value.(state := Restored))
                                   && RecordOf(m).value.saved == m.active)
            && (!IsPending(t.m) ==> m == t.m)
  {
    GuidIsNormal(t.m.active);
    if IsPending(t.m) {
      var r := RecordOf(t.m).value;
      CloseRecord(t, r, Restored);
      RollbackKeeps(t, r, f);
    }
  }

  /** Commands that respect the order "recover, then switch": an unreadable record skips the recovery,
      which is harmless only if there was nothing to recover. */
  ghost predicate KeepsOrder(m: Machine, c: Command) {
    c.Apply? ==> c.readOk || !IsPending(m) || m.active == RecordOf(m).value.saved
  }

  lemma {:induction false} TraceEnds(t: Tracked, ms: seq<Machine>)
    requires ms != [] && ms[0] == t.m && KeepsInv(t, ms[1..])
    ensures Inv(Follow(t, ms[1..])) && Follow(t, ms[1..]).m == Last(ms)
  {
    FollowEnds(t, ms[1..]);
    assert ms[1..][..|ms| - 1] == ms[1..];
  }

  /** Where a completed recovery leaves things: consistent, with the settled scheme in force. */
  lemma {:induction false} AfterRecovery(t: Tracked, rf: RollbackFaults)
    requires Inv(t) && RecoverOk(t.m, rf)
    ensures var t1 := Follow(t, RecoverTrace(t.m, rf)[1..]);
            Inv(t1) && t1.m == Last(RecoverTrace(t.m, rf)) && t1.settled == t1.m.active
  {
    RecoverKeeps(t, rf);
    RecoverCompletes(t, rf);
    TraceEnds(t, RecoverTrace(t.m, rf));
  }

  lemma {:induction false} ApplyKeeps(t: Tracked, target: string, rf: RollbackFaults, f: SwitchFaults)
    requires Inv(t) && IsPending(t.m)
    ensures KeepsInv(t, ApplyTrace(t.m, target, true, rf, f)[1..])
  {
    var first := RecoverTrace(t.m, rf);
    RecoverKeeps(t, rf);
    if RecoverOk(t.m, rf) {
      AfterRecovery(t, rf);
      var t1 := Follow(t, first[1..]);
      SwitchKeeps(t1, target, f);
      var second := SwitchTrace(Last(first), target, f)[1..];
      KeepsInvConcat(t, first[1..], second);
      TailOfConcat(first, second);
    }
  }

  lemma {:induction false} CommandKeeps(t: Tracked, c: Command)
    requires Inv(t) && KeepsOrder(t.m, c)
    ensures KeepsInv(t, CommandTrace(t.m, c)[1..])
  {
    match c
    case Apply(target, readOk, rf, f) =>
      if readOk && IsPending(t.m) {
        ApplyKeeps(t, target, rf, f);
      } else {
        SwitchKeeps(t, target, f);
      }
    case Restore(rf) =>
      if rf.readOk && RecordOf(t.m).Some? { RollbackKeeps(t, RecordOf(t.m).value, rf); }
    case Recover(rf) => RecoverKeeps(t, rf);
  }

  // ---------- what success means ----------

  lemma {:induction false} SavedInNormalForm(m: Machine, r: Record, ok: bool)
    requires Save(m, r, ok).Some? && (r.target.Some? ==> IsGuid(r.target.value))
    ensures ok && Normalize(r.saved).Some?
    ensures Save(m, r, ok).value.active == m.active && RecordOf(Save(m, r, ok).value) == Some(r.(saved := Normalize(r.saved).value))
  {
    GuidIsNormal(Normalize(r.saved).value);
    if r.target.Some? { GuidIsNormal(r.target.value); }
    SavedReads(m, r.(saved := Normalize(r.saved).value), true);
    assert Save(m, r, true) == Save(m, r.(saved := Normalize(r.saved).value), true);
  }

  /** A switch that is reported done has put the target in force, under an applied record that names the scheme before. */
  lemma {:induction false} SwitchTakesEffect(m: Machine, target: string, f: SwitchFaults)
    requires SwitchOk(m, target, f)
    ensures var u := Last(SwitchTrace(m, target, f));
            && Normalize(target) == Some(u.active) && Normalize(m.active).Some?
            && RecordOf(u) == Some(Record(Normalize(m.active).value, Some(u.active), Applied))
  {
    var g := Normalize(target).value;
    var pending := Record(m.active, Some(g), Pending);
    SavedInNormalForm(m, pending, f.saveOk);
    var m1 := Save(m, pending, f.saveOk).value;
    SavedInNormalForm(m1.(active := g), pending.(state := Applied), f.markOk);
  }

  /** The pending record is on disk before the scheme changes: until then a switch that fails has changed nothing. */
  lemma {:induction false} RecordComesFirst(m: Machine, target: string, f: SwitchFaults, k: nat)
    requires k < |SwitchTrace(m, target, f)| && SwitchTrace(m, target, f)[k].active != m.active
    ensures k >= 2 && Normalize(target).Some? && Normalize(m.active).Some?
    ensures RecordOf(SwitchTrace(m, target, f)[1]) == Some(Record(Normalize(m.active).value, Normalize(target), Pending))
  {
    var pending := Record(m.active, Some(Normalize(target).value), Pending);
    SavedInNormalForm(m, pending, f.saveOk);
  }

  /** A rollback that is reported done ends at the saved scheme under a restored record. */
  lemma {:induction false} RollbackTakesEffect(m: Machine, r: Record, f: RollbackFaults)
    requires RecordOf(m) == Some(r)
    ensures RollbackOk(m, r, f) <==> f.setOk && f.readBackOk && f.markOk
    ensures RollbackOk(m, r, f) ==> var u := Last(RollbackTrace(m, r, f)); u.active == r.saved && RecordOf(u) == Some(r.(state := Restored))
  {
    ParsedRecordIsValid(m.file.value);
    GuidIsNormal(r.saved);
    SavedReads(m, r.(state := Restored), f.markOk);
    SavedReads(m.(active := r.saved), r.(state := Restored), f.markOk);
  }

  /** The restore command is done exactly when there is a record and every call succeeds, and then the saved scheme is in force again. */
  lemma {:induction false} RestoreTakesEffect(m: Machine, f: RollbackFaults)
    ensures RestoreOk(m, f) <==> RecordOf(m).Some? && f.readOk && f.setOk && f.readBackOk && f.markOk
    ensures RestoreOk(m, f) ==>
              var u := Last(RestoreTrace(m, f)); u.active == RecordOf(m).value.saved && RecordOf(u) == Some(RecordOf(m).value.(state := Restored))
  {
    if RecordOf(m).Some? { RollbackTakesEffect(m, RecordOf(m).value, f); }
  }

  /** What there is to recover: a pending record, while the present scheme is known. */
  predicate IsOpen(m: Machine) { RecordOf(m).Some? && RecordOf(m).value.state == Pending && Normalize(m.active).Some? }

  /**
    A recovery from any state. There is nothing to do when the record is not pending or the present scheme is
    unknown; otherwise it is done exactly when the record can be rewritten and, away from the saved scheme,
    the scheme can be set, and then the saved scheme is in force under a restored record.
   */
  lemma {:induction false} RecoveryTakesEffect(m: Machine, f: RollbackFaults)
    ensures !IsOpen(m) ==> RecoverTrace(m, f) == [m] && (RecoverOk(m, f) <==> f.readOk && f.getOk)
    ensures IsOpen(m) ==> (RecoverOk(m, f) <==>
              f.readOk && f.getOk && f.markOk && (Normalize(m.active) == Some(RecordOf(m).value.saved) || (f.setOk && f.readBackOk)))
    ensures IsOpen(m) && RecoverOk(m, f) ==>
              var u := Last(RecoverTrace(m, f));
              Normalize(u.active) == Some(RecordOf(m).value.saved) && RecordOf(u) == Some(RecordOf(m).value.(state := Restored))
  {
    if IsOpen(m) {
      var r := RecordOf(m).value;
      ParsedRecordIsValid(m.file.value);
      GuidIsNormal(r.saved);
      SavedReads(m, r.(state := Restored), f.markOk);
      RollbackTakesEffect(m, r, f);
    }
  }

  /** The apply command: done, the target is in force under an applied record, and the way back leads to the scheme that an
      open switch had saved, if one was found and rolled back first, else to the one in force before. */
  lemma {:induction false} ApplyTakesEffect(m: Machine, target: string, readOk: bool, rf: RollbackFaults, f: SwitchFaults)
    requires ApplyOk(m, target, readOk, rf, f)
    ensures var u := Last(ApplyTrace(m, target, readOk, rf, f));
            var pending := readOk && RecordOf(m).Some? && RecordOf(m).value.state == Pending;
            && Normalize(target) == Some(u.active) && Normalize(m.active).Some?
            && RecordOf(u) == Some(Record(if pending then RecordOf(m).value.saved else Normalize(m.active).value, Some(u.active), Applied))
  {
    if readOk && IsPending(m) {
      var first := RecoverTrace(m, rf);
      var second := SwitchTrace(Last(first), target, f);
      RecoveryTakesEffect(m, rf);
      SwitchTakesEffect(Last(first), target, f);
      assert Last(first + second[1..]) == Last(second) by { AppendTails([], first, second); }
    } else {
      SwitchTakesEffect(m, target, f);
    }
  }

  // ---------- runs ----------

  ghost predicate OrderedRun(t: Tracked, steps: seq<(Command, nat)>)
    decreases |steps|
  {
    steps != [] ==> KeepsOrder(t.m, steps[0].0) && OrderedRun(Execute(t, steps[0].0, steps[0].1), steps[1..])
  }

  lemma {:induction false} CutKeepsInv(t: Tracked, ms: seq<Machine>, crash: nat)
    requires ms != [] && KeepsInv(t, ms[1..])
    ensures Inv(Follow(t, Cut(ms, crash)))
  {
    var k := if crash < |ms| - 1 then crash else |ms| - 1;
    assert Cut(ms, crash) == ms[1..][..k];
  }

  lemma {:induction false} ExecuteKeepsInv(t: Tracked, c: Command, crash: nat)
    requires Inv(t) && KeepsOrder(t.m, c)
    ensures Inv(Execute(t, c, crash))
  {
    CommandKeeps(t, c);
    CutKeepsInv(t, CommandTrace(t.m, c), crash);
  }

  lemma {:induction false} RunKeepsInv(t: Tracked, steps: seq<(Command, nat)>)
    requires Inv(t) && OrderedRun(t, steps)
    ensures Inv(Run(t, steps))
    decreases |steps|
  {
    if steps != [] {
      ExecuteKeepsInv(t, steps[0].0, steps[0].1);
      RunKeepsInv(Execute(t, steps[0].0, steps[0].1), steps[1..]);
    }
  }

  /** Commands whose reads of the record succeed are in order, whatever else fails and wherever they crash. */
  lemma {:induction false} ReadableRunsAreOrdered(t: Tracked, steps: seq<(Command, nat)>)
    requires forall i | 0 <= i < |steps| :: steps[i].0.Apply? ==> steps[i].0.readOk
    ensures OrderedRun(t, steps)
    decreases |steps|
  {
    if steps != [] { ReadableRunsAreOrdered(Execute(t, steps[0].0, steps[0].1), steps[1..]); }
  }

  /** No record yet, some scheme in force. */
  function Fresh(active: string): Tracked { Tracked(Machine(active, None), active, active) }

  /**
    After any sequence of commands with any failures and a crash after any state change: when the
    active scheme differs from the one in force before the last switch was begun, the file names
    that one as the scheme to go back to; and while a switch is open the file names the settled one.
   */
  lemma {:induction false} TheWayBackIsKnown(active: string, steps: seq<(Command, nat)>)
    requires IsGuid(active) && OrderedRun(Fresh(active), steps)
    ensures var t := Run(Fresh(active), steps);
            && (t.m.active != t.origin ==> RecordOf(t.m).Some? && RecordOf(t.m).value.saved == t.origin)
            && (IsPending(t.m) ==> RecordOf(t.m).value.saved == t.settled)
            && (t.m.active != t.settled ==> IsPending(t.m))
  {
    RunKeepsInv(Fresh(active), steps);
  }

  /** From every reachable state, crash included, a recovery without failures ends in the settled scheme. */
  lemma {:induction false} RecoveryReturnsToSettled(active: string, steps: seq<(Command, nat)>, f: RollbackFaults)
    requires IsGuid(active) && OrderedRun(Fresh(active), steps)
    requires f == RollbackFaults(true, true, true, true, true)
    ensures var t := Run(Fresh(active), steps);
            RecoverOk(t.m, f) && Last(RecoverTrace(t.m, f)).active == t.settled && !IsPending(Last(RecoverTrace(t.m, f)))
  {
    RunKeepsInv(Fresh(active), steps);
    var t := Run(Fresh(active), steps);
    GuidIsNormal(t.m.active);
    if IsPending(t.m) {
      CloseRecord(t, RecordOf(t.m).value, Restored);
      SetToSaved(t, RecordOf(t.m).value);
    }
    RecoverCompletes(t, f);
  }

  /** The pending record of a switch gets written. */
  ghost predicate Writes(m: Machine, c: Command) {
    c.Apply? && Normalize(c.target).Some? && c.faults.getOk && c.faults.saveOk
  }

  lemma {:induction false} SkippedRecoveryLosesTheWayBack(t: Tracked, c: Command)
    requires Inv(t) && !KeepsOrder(t.m, c) && Writes(t.m, c)
    ensures var u := Execute(t, c, 1); IsPending(u.m) && RecordOf(u.m).value.saved == t.m.active != t.settled == u.settled
  {
    var pending := Record(t.m.active, Some(Normalize(c.target).value), Pending);
    SavedReads(t.m, pending, true);
    var m1 := Save(t.m, pending, true).value;
    var ms := SwitchTrace(t.m, c.target, c.faults);
    assert |ms| >= 2 && ms[1] == m1;
    assert ms[1..2] == [m1] && (|ms| == 2 ==> ms[1..] == [m1]);
    assert [m1][1..] == [];
    assert Follow(t, [m1]) == Advance(t, m1);
    assert Execute(t, c, 1) == Advance(t, m1);
  }

  lemma {:induction false} UnwrittenApplyChangesNothing(t: Tracked, c: Command, crash: nat)
    requires Inv(t) && !KeepsOrder(t.m, c) && !Writes(t.m, c)
    ensures Execute(t, c, crash) == t
  {
    var ms := SwitchTrace(t.m, c.target, c.faults);
    if Normalize(c.target).Some? && !c.faults.saveOk {
      assert Save(t.m, Record(t.m.active, Some(Normalize(c.target).value), Pending), c.faults.saveOk) == None;
    }
    assert ms == [t.m];
    assert Cut(ms, crash) == [];
  }

  /**
    The order matters exactly: a command keeps the way back at every crash point if and only if it
    is not an apply whose record read failed while a real switch was open and that then writes
    its own record over the open one.
   */
  lemma {:induction false} OrderMattersExactly(t: Tracked, c: Command)
    requires Inv(t)
    ensures (forall crash: nat :: Inv(Execute(t, c, crash))) <==> KeepsOrder(t.m, c) || !Writes(t.m, c)
  {
    if KeepsOrder(t.m, c) {
      forall crash: nat ensures Inv(Execute(t, c, crash)) { ExecuteKeepsInv(t, c, crash); }
    } else if !Writes(t.m, c) {
      forall crash: nat ensures Inv(Execute(t, c, crash)) { UnwrittenApplyChangesNothing(t, c, crash); }
    } else {
      SkippedRecoveryLosesTheWayBack(t, c);
      assert !Inv(Execute(t, c, 1));
    }
  }
}
