/** The policy rules, the hysteresis filter and the evaluator that combines them (source/policy/policy_engine.cpp). */
module PolicyEngine {

  datatype Pressure = Comfortable | Adequate | Tight | Critical
  datatype Action = NoOp | Notify | SuggestMemoryTune | SuggestPriorityBoost
  datatype Game = Game(gameId: string, running: bool, foreground: bool, pauseWhenBackground: bool)
  datatype Input = Input(pressure: Pressure, game: Game, userPresent: bool)
  datatype Decision = Decision(action: Action, gameId: string, reasonCode: string, reason: string, ttl: int)
  datatype Evaluation = Evaluation(decision: Decision, suppressed: bool)
  datatype Sample = Sample(input: Input, now: int)

  predicate Acts(d: Decision) { d.action != NoOp }

  /** A game is up and the user is there to see it. */
  predicate Watched(i: Input) { i.game.running && i.game.gameId != "" && i.userPresent }

  /** The rules in their order; the first that applies decides. */
  function EvaluatePolicy(i: Input): (d: Decision)
    ensures d.gameId == i.game.gameId && d.ttl == 0
    ensures d.reasonCode == "no_game" <==> !i.game.running || i.game.gameId == ""
    ensures d.reasonCode == "mem_critical" <==> i.game.running && i.game.gameId != "" && i.pressure == Critical
    ensures d.reasonCode == "user_away" <==> i.game.running && i.game.gameId != "" && i.pressure != Critical && !i.userPresent
    ensures d.reasonCode == "game_background" <==> Watched(i) && i.pressure != Critical && !i.game.foreground && i.game.pauseWhenBackground
    ensures d.reasonCode == "mem_tight" <==> Watched(i) && (i.game.foreground || !i.game.pauseWhenBackground) && i.pressure == Tight
    ensures d.reasonCode == "prio_boost" <==> Watched(i) && i.game.foreground && i.pressure !in {Tight, Critical}
    ensures d.reasonCode == "mem_ok" <==> Watched(i) && i.pressure !in {Tight, Critical} && !i.game.foreground && !i.game.pauseWhenBackground
    ensures d.action == Notify <==> d.reasonCode == "mem_critical"
    ensures d.action == SuggestMemoryTune <==> d.reasonCode == "mem_tight"
    ensures d.action == SuggestPriorityBoost <==> d.reasonCode == "prio_boost"
  {
    var id := i.game.gameId;
    if !i.game.running || id == "" then
      Decision(NoOp, id, "no_game", "no game is running", 0)
    else if i.pressure == Critical then
      Decision(Notify, id, "mem_critical", "memory margin is critical, notify only", 0)
    else if !i.userPresent then
      Decision(NoOp, id, "user_away", "the user is away", 0)
    else if !i.game.foreground && i.game.pauseWhenBackground then
      Decision(NoOp, id, "game_background", "the game is paused in the background", 0)
    else if i.pressure == Tight then
      Decision(SuggestMemoryTune, id, "mem_tight", "memory margin is tight", 0)
    else if i.game.foreground then
      Decision(SuggestPriorityBoost, id, "prio_boost", "the game is in front and memory suffices", 0)
    else
      Decision(NoOp, id, "mem_ok", "no evidence for an optimisation", 0)
  }

  predicate SameDecision(a: Decision, b: Decision) {
    a.action == b.action && a.gameId == b.gameId && a.reasonCode == b.reasonCode
  }

  /** A negative cooldown counts as none. */
  function Clamp(cooldown: int): (c: nat)
    ensures c >= cooldown && (cooldown >= 0 ==> c == cooldown)
  {
    if cooldown < 0 then 0 else cooldown
  }

  /** What the rules say of a sample; a suggestion lives for one cooldown. */
  function Fresh(cooldown: int, i: Input): Decision {
    var d := EvaluatePolicy(i);
    if Acts(d) then d.(ttl := Clamp(cooldown)) else d
  }

  /** An answer that suggests something lives for one cooldown, counted as 0 if it is negative; one that does not has no lifetime. */
  lemma {:induction false} Lifetime(cooldown: int, i: Input)
    ensures Fresh(cooldown, i).ttl == if EvaluatePolicy(i).action == NoOp || cooldown < 0 then 0 else cooldown
    ensures Fresh(cooldown, i) == EvaluatePolicy(i).(ttl := Fresh(cooldown, i).ttl)
  {
  }

  /** Action, game and reason code determine the rest of a decision, its text and lifetime included. */
  lemma {:induction false} SameDecisionIsEqual(cooldown: int, i: Input, j: Input)
    requires SameDecision(Fresh(cooldown, i), Fresh(cooldown, j))
    ensures Fresh(cooldown, i) == Fresh(cooldown, j)
  {
    var codes := map["no_game" := "", "mem_critical" := "", "user_away" := "", "game_background" := "", "mem_tight" := "", "prio_boost" := "", "mem_ok" := ""];
    assert EvaluatePolicy(i).reasonCode in codes && EvaluatePolicy(j).reasonCode in codes;
  }

  datatype Filter = Filter(state: bool, lastChange: int, hasState: bool)

  const IDLE_FILTER := Filter(false, 0, false)

  function FilterStep(cooldown: int, f: Filter, wanted: bool, now: int): Filter {
    if !f.hasState then Filter(wanted, now, true)
    else if wanted == f.state || now - f.lastChange < Clamp(cooldown) then f
    else Filter(wanted, now, true)
  }

  /** The filter takes the first wish as it is, and another one from then on exactly when a cooldown has passed since the last change. */
  lemma {:induction false} FilterSwitchesIff(cooldown: int, f: Filter, wanted: bool, now: int)
    ensures var u := FilterStep(cooldown, f, wanted, now);
            && u.hasState
            && (u != f <==> !f.hasState || (wanted != f.state && now - f.lastChange >= cooldown && now >= f.lastChange))
            && (u != f ==> u == Filter(wanted, now, true))
  {
  }

  const NO_DECISION := Decision(NoOp, "", "", "", 0)

  datatype Memory = Memory(filter: Filter, last: Decision, hasLast: bool)

  const BLANK := Memory(IDLE_FILTER, NO_DECISION, false)

  function EvaluateStep(cooldown: int, m: Memory, s: Sample): (Memory, Evaluation) {
    var advice := Fresh(cooldown, s.input);
    var driven := FilterStep(cooldown, m.filter, Acts(advice), s.now);
    if !m.hasLast then (Memory(driven, advice, true), Evaluation(advice, false))
    else if SameDecision(m.last, advice) then (m, Evaluation(advice, false))
    else if driven.state == Acts(advice) then (Memory(driven, advice, true), Evaluation(advice, false))
    else (m.(filter := driven), Evaluation(m.last, true))
  }

  class HysteresisFilter {
    const cooldown: nat
    var state: bool
    var lastChange: int
    var hasState: bool

    ghost function Value(): Filter reads this { Filter(state, lastChange, hasState) }

    constructor (cooldown: int)
      ensures this.cooldown == Clamp(cooldown) && Value() == IDLE_FILTER
    {
      this.cooldown := if cooldown < 0 then 0 else cooldown;
      state, lastChange, hasState := false, 0, false;
    }

    method Update(wanted: bool, now: int) returns (effective: bool)
      modifies this
      ensures Value() == FilterStep(cooldown, old(Value()), wanted, now) && effective == state
    {
      if !hasState {
        state, lastChange, hasState := wanted, now, true;
        return state;
      }
      if wanted == state { return state; }
      if now - lastChange < cooldown { return state; }
      state, lastChange := wanted, now;
      return state;
    }

    method Reset()
      modifies this
      ensures Value() == IDLE_FILTER
    {
      state, hasState, lastChange := false, false, 0;
    }
  }

  class PolicyEvaluator {
    const cooldown: nat
    const filter: HysteresisFilter
    var last: Decision
    var hasLast: bool

    ghost predicate Valid() { filter.cooldown == cooldown }

    ghost function State(): Memory reads this, filter { Memory(filter.Value(), last, hasLast) }

    constructor (cooldown: int)
      ensures Valid() && this.cooldown == Clamp(cooldown) && State() == BLANK && fresh(filter)
    {
      this.cooldown := if cooldown < 0 then 0 else cooldown;
      filter := new HysteresisFilter(cooldown);
      last, hasLast := NO_DECISION, false;
    }

    method Evaluate(s: Sample) returns (r: Evaluation)
      requires Valid()
      modifies this, filter
      ensures (State(), r) == EvaluateStep(cooldown, old(State()), s)
    {
      var decision := EvaluatePolicy(s.input);
      if decision.action != NoOp { decision := decision.(ttl := cooldown); }
      if !hasLast {
        hasLast, last := true, decision;
        var _ := filter.Update(decision.action != NoOp, s.now);
        return Evaluation(decision, false);
      }
      if SameDecision(last, decision) { return Evaluation(decision, false); }
      var acting := decision.action != NoOp;
      var effective := filter.Update(acting, s.now);
      if effective == acting {
        last := decision;
        return Evaluation(decision, false);
      }
      return Evaluation(last, true);
    }

    /** The evaluator is as good as new: what the runs below say from the start holds from here. */
    method Reset()
      modifies this, filter
      ensures State() == BLANK
    {
      hasLast, last := false, NO_DECISION;
      filter.Reset();
    }

    /** The act status the evaluator reports. */
    method IsActing() returns (r: bool)
      ensures r == State().filter.state
    {
      return filter.state;
    }
  }

  // ---- Whole runs ----

  /** The memory after a run of samples from a blank evaluator. */
  function After(cooldown: int, run: seq<Sample>): Memory {
    if run == [] then BLANK
    else EvaluateStep(cooldown, After(cooldown, run[..|run| - 1]), run[|run| - 1]).0
  }

  /** What the evaluator answered, sample by sample. */
  function Answers(cooldown: int, run: seq<Sample>): (rs: seq<Evaluation>)
    ensures |rs| == |run|
  {
    if run == [] then []
    else
      var before := run[..|run| - 1];
      Answers(cooldown, before) + [EvaluateStep(cooldown, After(cooldown, before), run[|run| - 1]).1]
  }

  /** The answered status at `i` is not the one before. */
  predicate Flips(rs: seq<Evaluation>, i: nat) {
    0 < i < |rs| && Acts(rs[i].decision) != Acts(rs[i - 1].decision)
  }

  /** The latest flip among the answers; the first answer stands in when there is none. */
  function LatestFlip(rs: seq<Evaluation>): (k: nat)
    requires rs != []
    ensures k < |rs|
  {
    var n := |rs| - 1;
    if n == 0 || Flips(rs, n) then n else LatestFlip(rs[..n])
  }

  lemma {:induction false} FlipsBefore(rs: seq<Evaluation>, n: nat, i: nat)
    requires i < n <= |rs|
    ensures Flips(rs[..n], i) == Flips(rs, i)
  {
  }

  lemma {:induction false} LatestFlipIsLatest(rs: seq<Evaluation>, i: nat)
    requires rs != [] && i < |rs|
    ensures var k := LatestFlip(rs); (k > 0 ==> Flips(rs, k)) && (k < i ==> !Flips(rs, i))
    decreases |rs|
  {
    var n := |rs| - 1;
    if n > 0 && !Flips(rs, n) {
      LatestFlipIsLatest(rs[..n], if i < n then i else 0);
      FlipsBefore(rs, n, LatestFlip(rs[..n]));
      if i < n { FlipsBefore(rs, n, i); }
    }
  }

  function FlipCount(rs: seq<Evaluation>): nat {
    if rs == [] then 0
    else FlipCount(rs[..|rs| - 1]) + if Flips(rs, |rs| - 1) then 1 else 0
  }

  /**
    Answer `i` told from the answers before it and the rules alone: the rules' decision comes through
    unless it would flip the status less than a cooldown after the latest flip, and then the previous
    answer is repeated.
   */
  predicate DebouncedAt(cooldown: int, run: seq<Sample>, rs: seq<Evaluation>, i: nat)
    requires i < |run| == |rs|
  {
    var advice := Fresh(cooldown, run[i].input);
    if i == 0 then rs[0] == Evaluation(advice, false)
    else
      var flips := Acts(advice) != Acts(rs[i - 1].decision);
      var held := flips && run[i].now - run[LatestFlip(rs[..i])].now < Clamp(cooldown);
      rs[i] == Evaluation(if held then rs[i - 1].decision else advice, held)
  }

  predicate Debounced(cooldown: int, run: seq<Sample>, rs: seq<Evaluation>)
    requires |run| == |rs|
  {
    forall i | 0 <= i < |run| :: DebouncedAt(cooldown, run, rs, i)
  }

  ghost predicate ComesFromRules(cooldown: int, d: Decision) {
    exists i: Input :: d == Fresh(cooldown, i)
  }

  /** The memory is what the answers so far and the clock say. */
  ghost predicate Explained(cooldown: int, run: seq<Sample>, rs: seq<Evaluation>, m: Memory)
    requires |run| == |rs|
  {
    if run == [] then m == BLANK
    else
      && m.hasLast && m.filter.hasState
      && m.last == rs[|rs| - 1].decision
      && m.filter.state == Acts(m.last)
      && m.filter.lastChange == run[LatestFlip(rs)].now
      && ComesFromRules(cooldown, m.last)
  }

  /** A repeated decision equals the remembered one, so the filter need not be driven. */
  lemma {:induction false} RepeatIsEqual(cooldown: int, last: Decision, i: Input)
    requires ComesFromRules(cooldown, last) && SameDecision(last, Fresh(cooldown, i))
    ensures last == Fresh(cooldown, i)
  {
    var j: Input :| last == Fresh(cooldown, j);
    SameDecisionIsEqual(cooldown, j, i);
  }

  lemma {:induction false} FreshComesFromRules(cooldown: int, i: Input)
    ensures ComesFromRules(cooldown, Fresh(cooldown, i))
  {
  }

  /** One evaluation told from the last answer and the latest flip alone. */
  lemma {:induction false} StepTold(cooldown: int, m: Memory, s: Sample, last: Decision, flip: int)
    requires m == Memory(Filter(Acts(last), flip, true), last, true) && ComesFromRules(cooldown, last)
    ensures var advice := Fresh(cooldown, s.input);
            var flips := Acts(advice) != Acts(last);
            var held := flips && s.now - flip < Clamp(cooldown);
            var now := if flips && !held then s.now else flip;
            var answer := if held then last else advice;
            EvaluateStep(cooldown, m, s) == (Memory(Filter(Acts(answer), now, true), answer, true), Evaluation(answer, held))
  {
    if SameDecision(last, Fresh(cooldown, s.input)) { RepeatIsEqual(cooldown, last, s.input); }
  }

  /** The latest flip after one more answer. */
  lemma {:induction false} LatestFlipNext(rs: seq<Evaluation>, r: Evaluation)
    requires rs != []
    ensures LatestFlip(rs + [r]) == if Acts(r.decision) != Acts(rs[|rs| - 1].decision) then |rs| else LatestFlip(rs)
  {
    var all, n := rs + [r], |rs|;
    assert all[..n] == rs && all[n] == r && all[n - 1] == rs[n - 1];
    assert Flips(all, n) == (Acts(r.decision) != Acts(rs[n - 1].decision));
  }

  lemma {:induction false} FirstIsExplained(cooldown: int, s: Sample)
    ensures var (m', r) := EvaluateStep(cooldown, BLANK, s);
            Explained(cooldown, [s], [r], m') && DebouncedAt(cooldown, [s], [r], 0)
  {
    FreshComesFromRules(cooldown, s.input);
  }

  /** One evaluation, for any decision the rules may have produced. */
  lemma {:induction false} StepIsExplained(cooldown: int, run: seq<Sample>, rs: seq<Evaluation>, m: Memory, s: Sample)
    requires |run| == |rs| && Explained(cooldown, run, rs, m)
    ensures var (m', r) := EvaluateStep(cooldown, m, s);
            Explained(cooldown, run + [s], rs + [r], m') && DebouncedAt(cooldown, run + [s], rs + [r], |run|)
  {
    var (m', r) := EvaluateStep(cooldown, m, s);
    if run == [] {
      assert run + [s] == [s] && rs + [r] == [r];
      FirstIsExplained(cooldown, s);
    } else {
      var flip := run[LatestFlip(rs)].now;
      StepTold(cooldown, m, s, m.last, flip);
      LatestFlipNext(rs, r);
      FreshComesFromRules(cooldown, s.input);
      assert (rs + [r])[..|rs|] == rs && (rs + [r])[|rs| - 1] == rs[|rs| - 1] && (run + [s])[LatestFlip(rs)] == run[LatestFlip(rs)];
    }
  }

  lemma {:induction false} DebouncedExtends(cooldown: int, run: seq<Sample>, rs: seq<Evaluation>, s: Sample, r: Evaluation)
    requires |run| == |rs| && Debounced(cooldown, run, rs) && DebouncedAt(cooldown, run + [s], rs + [r], |run|)
    ensures Debounced(cooldown, run + [s], rs + [r])
  {
    forall i | 0 <= i < |run| ensures DebouncedAt(cooldown, run + [s], rs + [r], i) {
      assert DebouncedAt(cooldown, run, rs, i);
      assert (rs + [r])[..i] == rs[..i];
    }
  }

  lemma {:induction false} AnswersStep(cooldown: int, run: seq<Sample>)
    requires run != []
    ensures var before, s := run[..|run| - 1], run[|run| - 1];
            var (m, r) := EvaluateStep(cooldown, After(cooldown, before), s);
            run == before + [s] && After(cooldown, run) == m && Answers(cooldown, run) == Answers(cooldown, before) + [r]
  {
  }

  /** Every run of the evaluator is the debounced reading of the rules. */
  lemma {:induction false} AnswersAreDebounced(cooldown: int, run: seq<Sample>)
    ensures Debounced(cooldown, run, Answers(cooldown, run))
    ensures Explained(cooldown, run, Answers(cooldown, run), After(cooldown, run))
    decreases |run|
  {
    if run != [] {
      var before, s := run[..|run| - 1], run[|run| - 1];
      AnswersAreDebounced(cooldown, before);
      var m := After(cooldown, before);
      StepIsExplained(cooldown, before, Answers(cooldown, before), m, s);
      DebouncedExtends(cooldown, before, Answers(cooldown, before), s, EvaluateStep(cooldown, m, s).1);
      AnswersStep(cooldown, run);
    }
  }

  /** The filter state an observer may ask for is the status of the answer just given. */
  lemma {:induction false} ReportedStatusIsTheAnswer(cooldown: int, run: seq<Sample>)
    requires run != []
    ensures After(cooldown, run).filter.state == Acts(Answers(cooldown, run)[|run| - 1].decision)
  {
    AnswersAreDebounced(cooldown, run);
  }

  lemma {:induction false} DebouncedFlipWaits(cooldown: int, run: seq<Sample>, rs: seq<Evaluation>, j: nat)
    requires |run| == |rs| && Debounced(cooldown, run, rs) && Flips(rs, j)
    ensures run[j].now - run[LatestFlip(rs[..j])].now >= Clamp(cooldown)
  {
    assert DebouncedAt(cooldown, run, rs, j);
  }

  lemma {:induction false} DebouncedFlipsAreApart(cooldown: int, run: seq<Sample>, rs: seq<Evaluation>, i: nat, j: nat)
    requires |run| == |rs| && Debounced(cooldown, run, rs)
    requires i < j && Flips(rs, j) && (i == 0 || Flips(rs, i))
    ensures run[j].now - run[i].now >= Clamp(cooldown)
    decreases j
  {
    DebouncedFlipWaits(cooldown, run, rs, j);
    var k := LatestFlip(rs[..j]);
    LatestFlipIsLatest(rs[..j], i);
    FlipsBefore(rs, j, k);
    FlipsBefore(rs, j, i);
    if i < k { DebouncedFlipsAreApart(cooldown, run, rs, i, k); }
  }

  /** However the clock moves, two flips lie a cooldown apart, and so do the first answer and a flip. */
  lemma {:induction false} FlipsAreACooldownApart(cooldown: int, run: seq<Sample>, i: nat, j: nat)
    requires var rs := Answers(cooldown, run); i < j && Flips(rs, j) && (i == 0 || Flips(rs, i))
    ensures run[j].now - run[i].now >= cooldown
  {
    AnswersAreDebounced(cooldown, run);
    DebouncedFlipsAreApart(cooldown, run, Answers(cooldown, run), i, j);
  }

  lemma {:induction false} DebouncedFlipsTakeTime(cooldown: int, run: seq<Sample>, rs: seq<Evaluation>, n: nat)
    requires |run| == |rs| && 0 < n <= |rs| && Debounced(cooldown, run, rs)
    ensures run[LatestFlip(rs[..n])].now - run[0].now >= FlipCount(rs[..n]) * Clamp(cooldown)
    decreases n
  {
    assert rs[..n][..n - 1] == rs[..n - 1];
    assert Flips(rs[..n], n - 1) == Flips(rs, n - 1);
    if n > 1 {
      DebouncedFlipsTakeTime(cooldown, run, rs, n - 1);
      if Flips(rs, n - 1) {
        DebouncedFlipWaits(cooldown, run, rs, n - 1);
        Distribute(FlipCount(rs[..n - 1]), Clamp(cooldown));
      }
    } else {
      assert FlipCount(rs[..0]) == 0;
    }
  }

  lemma {:induction false} Distribute(k: nat, c: nat)
    ensures (k + 1) * c == k * c + c
  {
  }

  /** A run with `k` flips has taken at least `k` cooldowns by the latest of them. */
  lemma {:induction false} FlipsTakeTime(cooldown: int, run: seq<Sample>)
    requires run != []
    ensures var rs := Answers(cooldown, run);
            run[LatestFlip(rs)].now - run[0].now >= FlipCount(rs) * Clamp(cooldown)
  {
    AnswersAreDebounced(cooldown, run);
    var rs := Answers(cooldown, run);
    DebouncedFlipsTakeTime(cooldown, run, rs, |rs|);
    assert rs[..|rs|] == rs;
  }
}
