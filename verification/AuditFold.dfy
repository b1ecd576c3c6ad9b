/**
  Folding the summary file: all summary lines become one, every other line is kept
  (source/audit/audit_log.cpp). Nothing that the file says about the past changes.
 */
module AuditFold {
  import opened Text
  import opened AuditLines
  import opened AuditSummaryCodec

  // ---------- merging ----------

  function MergeOps(acc: seq<OpCount>, entries: seq<OpCount>): seq<OpCount>
    decreases |entries|
  {
    if entries == [] then acc
    else MergeOps(Bump(acc, entries[0].operationId, entries[0].ok, entries[0].fail), entries[1..])
  }

  function Merge(acc: Summary, r: Summary): Summary {
    Summary(AddWord(acc.total, r.total), AddWord(acc.ok, r.ok), AddWord(acc.fail, r.fail),
            AddWord(acc.unparsed, r.unparsed),
            MergeOps(acc.byOperation, r.byOperation),
            if acc.firstTimestamp == [] then r.firstTimestamp else acc.firstTimestamp,
            if r.lastTimestamp == [] then acc.lastTimestamp else r.lastTimestamp)
  }

  predicate IsRange(line: string) { ParseSummary(line).Some? }

  function MergeLine(acc: Summary, line: string): Summary {
    if IsRange(line) then Merge(acc, ParseSummary(line).value) else acc
  }

  /** Everything the summary lines of a file say, merged in file order. */
  function Merged(lines: seq<string>): Summary {
    if lines == [] then EMPTY else MergeLine(Merged(lines[..|lines| - 1]), lines[|lines| - 1])
  }

  /** The lines that are not summaries, in file order. */
  function Kept(lines: seq<string>): seq<string> {
    if lines == [] then []
    else Kept(lines[..|lines| - 1]) + if IsRange(lines[|lines| - 1]) then [] else [lines[|lines| - 1]]
  }

  function Ranges(lines: seq<string>): (n: nat)
    ensures n + |Kept(lines)| == |lines|
  {
    if lines == [] then 0
    else Ranges(lines[..|lines| - 1]) + if IsRange(lines[|lines| - 1]) then 1 else 0
  }

  /** The rewritten file: one merged line, then the others; only when that makes the file shorter. */
  function FoldLines(lines: seq<string>): seq<string> {
    if Ranges(lines) <= 1 then lines else [FormatSummary(Merged(lines))] + Kept(lines)
  }

  /** The review of a summary file. */
  datatype Totals = Totals(
    ranges: nat, total: nat, ok: nat, fail: nat, unparsed: nat, unparsable: nat,
    firstTimestamp: string, lastTimestamp: string)

  function AnalyzeLine(t: Totals, line: string): Totals {
    match ParseSummary(line)
    case None => t.(unparsable := AddWord(t.unparsable, 1))
    case Some(r) =>
      Totals(AddWord(t.ranges, 1), AddWord(t.total, r.total), AddWord(t.ok, r.ok), AddWord(t.fail, r.fail),
             AddWord(t.unparsed, r.unparsed), t.unparsable,
             if t.firstTimestamp == [] then r.firstTimestamp else t.firstTimestamp,
             if r.lastTimestamp == [] then t.lastTimestamp else r.lastTimestamp)
  }

  function Analyze(lines: seq<string>): Totals {
    if lines == [] then Totals(0, 0, 0, 0, 0, 0, "", "")
    else AnalyzeLine(Analyze(lines[..|lines| - 1]), lines[|lines| - 1])
  }

  method AnalyzeAuditSummaryLines(lines: seq<string>) returns (totals: Totals)
    ensures totals == Analyze(lines)
  {
    totals := Totals(0, 0, 0, 0, 0, 0, "", "");
    for i := 0 to |lines|
      invariant totals == Analyze(lines[..i])
    {
      assert lines[..i + 1][..i] == lines[..i];
      var record := ParseAuditSummaryLine(lines[i]);
      if record.None? {
        totals := totals.(unparsable := AddWord(totals.unparsable, 1));
        continue;
      }
      var r := record.value;
      totals := totals.(ranges := AddWord(totals.ranges, 1), total := AddWord(totals.total, r.total));
      totals := totals.(ok := AddWord(totals.ok, r.ok), fail := AddWord(totals.fail, r.fail));
      totals := totals.(unparsed := AddWord(totals.unparsed, r.unparsed));
      if totals.firstTimestamp == [] {
        totals := totals.(firstTimestamp := r.firstTimestamp);
      }
      if r.lastTimestamp != [] {
        totals := totals.(lastTimestamp := r.lastTimestamp);
      }
    }
    assert lines[..|lines|] == lines;
  }

  method MergeEntries(acc: seq<OpCount>, entries: seq<OpCount>) returns (out: seq<OpCount>)
    ensures out == MergeOps(acc, entries)
  {
    out := acc;
    for i := 0 to |entries|
      invariant MergeOps(out, entries[i..]) == MergeOps(acc, entries)
    {
      assert entries[i..][1..] == entries[i + 1..];
      out := BumpEntry(out, entries[i].operationId, entries[i].ok, entries[i].fail);
    }
  }

  /** The reading loop of the fold: merge what parses, keep the text of what does not. */
  method MergeSummaryLines(lines: seq<string>) returns (merged: Summary, kept: seq<string>, ranges: nat)
    ensures merged == Merged(lines) && kept == Kept(lines) && ranges == Ranges(lines)
  {
    merged, kept, ranges := EMPTY, [], 0;
    for i := 0 to |lines|
      invariant merged == Merged(lines[..i]) && kept == Kept(lines[..i]) && ranges == Ranges(lines[..i])
    {
      assert lines[..i + 1][..i] == lines[..i];
      var record := ParseAuditSummaryLine(lines[i]);
      if record.None? {
        kept := kept + [lines[i]];
        continue;
      }
      var r := record.value;
      ranges := ranges + 1;
      var ops := MergeEntries(merged.byOperation, r.byOperation);
      merged := merged.(total := AddWord(merged.total, r.total), ok := AddWord(merged.ok, r.ok),
                        fail := AddWord(merged.fail, r.fail), unparsed := AddWord(merged.unparsed, r.unparsed),
                        byOperation := ops);
      if merged.firstTimestamp == [] {
        merged := merged.(firstTimestamp := r.firstTimestamp);
      }
      if r.lastTimestamp != [] {
        merged := merged.(lastTimestamp := r.lastTimestamp);
      }
    }
    assert lines[..|lines|] == lines;
  }

  // ---------- exact sums ----------

  datatype Field = Total | Ok | Fail | Unparsed

  function FieldOf(s: Summary, f: Field): nat {
    match f case Total => s.total case Ok => s.ok case Fail => s.fail case Unparsed => s.unparsed
  }

  /** The true sum of one field over the summary lines of a file. */
  function Sum(lines: seq<string>, f: Field): nat {
    if lines == [] then 0
    else Sum(lines[..|lines| - 1], f)
         + if IsRange(lines[|lines| - 1]) then FieldOf(ParseSummary(lines[|lines| - 1]).value, f) else 0
  }

  function TallyOf(line: string, id: string, ok: bool): nat {
    if IsRange(line) then Tally(ParseSummary(line).value.byOperation, id, ok) else 0
  }

  /** The true number of records of an operation that the summary lines of a file stand for. */
  function Summarized(lines: seq<string>, id: string, ok: bool): nat {
    if lines == [] then 0
    else Summarized(lines[..|lines| - 1], id, ok) + TallyOf(lines[|lines| - 1], id, ok)
  }

  /** Barring counter overflow: no true sum reaches the parser's limit. */
  ghost predicate NoOverflow(lines: seq<string>) {
    && (forall f :: Sum(lines, f) < PARSE_LIMIT)
    && (forall id, ok :: Summarized(lines, id, ok) < PARSE_LIMIT)
  }

  lemma {:induction false} MergeOpsTally(acc: seq<OpCount>, entries: seq<OpCount>, id: string, ok: bool)
    requires forall x, side :: Tally(acc, x, side) + Tally(entries, x, side) < WORD
    ensures Tally(MergeOps(acc, entries), id, ok) == Tally(acc, id, ok) + Tally(entries, id, ok)
    decreases |entries|
  {
    if entries != [] {
      var e, rest := entries[0], entries[1..];
      var next := Bump(acc, e.operationId, e.ok, e.fail);
      assert forall x, side :: Tally(entries, x, side) == (if e.operationId == x then Side(e, side) else 0) + Tally(rest, x, side);
      assert Tally(acc, e.operationId, true) + Tally(entries, e.operationId, true) < WORD;
      assert Tally(acc, e.operationId, false) + Tally(entries, e.operationId, false) < WORD;
      forall x, side ensures Tally(next, x, side) == Tally(acc, x, side) + if x == e.operationId then Side(e, side) else 0 {
        BumpTally(acc, e.operationId, e.ok, e.fail, x, side);
      }
      MergeOpsTally(next, rest, id, ok);
    }
  }

  lemma {:induction false} NoOverflowPrefix(lines: seq<string>)
    requires lines != [] && NoOverflow(lines)
    ensures NoOverflow(lines[..|lines| - 1])
  {
    var init := lines[..|lines| - 1];
    forall f ensures Sum(init, f) < PARSE_LIMIT { assert Sum(lines, f) < PARSE_LIMIT; }
    forall id, ok ensures Summarized(init, id, ok) < PARSE_LIMIT { assert Summarized(lines, id, ok) < PARSE_LIMIT; }
  }

  /** Without overflow the merged record holds the true sums. */
  lemma {:induction false} MergedFieldsAreSums(lines: seq<string>, f: Field)
    requires NoOverflow(lines)
    ensures FieldOf(Merged(lines), f) == Sum(lines, f)
    decreases |lines|
  {
    if lines != [] {
      NoOverflowPrefix(lines);
      MergedFieldsAreSums(lines[..|lines| - 1], f);
      assert Sum(lines, f) < PARSE_LIMIT;
    }
  }

  lemma {:induction false} MergedTalliesAreSums(lines: seq<string>, id: string, ok: bool)
    requires NoOverflow(lines)
    ensures Tally(Merged(lines).byOperation, id, ok) == Summarized(lines, id, ok)
    decreases |lines|
  {
    if lines != [] {
      var init, last := lines[..|lines| - 1], lines[|lines| - 1];
      NoOverflowPrefix(lines);
      MergedTalliesAreSums(init, id, ok);
      if IsRange(last) {
        var acc, entries := Merged(init).byOperation, ParseSummary(last).value.byOperation;
        forall x, side ensures Tally(acc, x, side) + Tally(entries, x, side) < WORD {
          MergedTalliesAreSums(init, x, side);
          assert Summarized(lines, x, side) < PARSE_LIMIT;
        }
        MergeOpsTally(acc, entries, id, ok);
      }
    }
  }

  // ---------- the merged record is printable ----------

  lemma {:induction false} MergeOpsKeepsPlainIds(acc: seq<OpCount>, entries: seq<OpCount>)
    requires IdsArePlain(acc) && IdsArePlain(entries)
    ensures IdsArePlain(MergeOps(acc, entries))
    decreases |entries|
  {
    if entries != [] {
      assert entries[0] in entries;
      BumpKeepsPlainIds(acc, entries[0].operationId, entries[0].ok, entries[0].fail);
      MergeOpsKeepsPlainIds(Bump(acc, entries[0].operationId, entries[0].ok, entries[0].fail), entries[1..]);
    }
  }

  lemma {:induction false} OpsFitIdsPlain(ops: seq<OpCount>)
    requires IdsAreWords(ops) && OpsFit(ops)
    ensures IdsArePlain(ops)
  {
    forall c | c in ops ensures PlainId(c.operationId) {
      var i :| 0 <= i < |ops| && ops[i] == c;
      assert OpFits(ops[i]);
    }
  }

  /** However odd the accepted lines are, what they merge into can be printed. */
  lemma {:induction false} MergedIsPrintable(lines: seq<string>)
    requires AllOneLine(lines)
    ensures Printable(Merged(lines)) && IdsArePlain(Merged(lines).byOperation)
    decreases |lines|
  {
    if lines != [] {
      var init, last := lines[..|lines| - 1], lines[|lines| - 1];
      MergedIsPrintable(init);
      if IsRange(last) {
        ParsedIsPrintable(last);
        OpsFitIdsPlain(ParseSummary(last).value.byOperation);
        MergeOpsKeepsPlainIds(Merged(init).byOperation, ParseSummary(last).value.byOperation);
      }
    }
  }

  lemma {:induction false} MergedCountsFit(lines: seq<string>)
    requires AllOneLine(lines) && NoOverflow(lines)
    ensures CountsFit(Merged(lines))
  {
    var m := Merged(lines);
    forall f ensures FieldOf(m, f) < PARSE_LIMIT { MergedFieldsAreSums(lines, f); }
    assert FieldOf(m, Total) == m.total && FieldOf(m, Ok) == m.ok && FieldOf(m, Fail) == m.fail && FieldOf(m, Unparsed) == m.unparsed;
    MergedIsPrintable(lines);
    forall i | 0 <= i < |m.byOperation| ensures OpFits(m.byOperation[i]) {
      var c := m.byOperation[i];
      assert c in m.byOperation;
      TallyCovers(m.byOperation, c, true);
      TallyCovers(m.byOperation, c, false);
      MergedTalliesAreSums(lines, c.operationId, true);
      MergedTalliesAreSums(lines, c.operationId, false);
    }
  }

  /** The merged line of any summary file parses back to exactly the merged record. */
  lemma {:induction false} MergedLineParses(lines: seq<string>)
    requires AllOneLine(lines) && NoOverflow(lines)
    ensures ParseSummary(FormatSummary(Merged(lines))) == Some(Merged(lines))
  {
    MergedIsPrintable(lines);
    MergedCountsFit(lines);
    SummaryRoundTrip(Merged(lines));
  }

  // ---------- folding changes nothing that is counted ----------

  lemma {:induction false} KeptIsUnparsable(lines: seq<string>)
    ensures forall l | l in Kept(lines) :: l in lines && !IsRange(l)
  {
    if lines != [] {
      KeptIsUnparsable(lines[..|lines| - 1]);
    }
  }

  /** Lines that are not summaries add nothing when they follow. */
  lemma {:induction false} TailAddsNothing(lines: seq<string>, tail: seq<string>)
    requires forall l | l in tail :: !IsRange(l)
    ensures Merged(lines + tail) == Merged(lines) && Ranges(lines + tail) == Ranges(lines)
    ensures Kept(lines + tail) == Kept(lines) + tail
    decreases |tail|
  {
    if tail == [] {
      assert lines + tail == lines;
    } else {
      var init, last := tail[..|tail| - 1], tail[|tail| - 1];
      assert last in tail;
      assert (lines + tail)[..|lines + tail| - 1] == lines + init;
      TailAddsNothing(lines, init);
      assert tail == init + [last];
    }
  }

  lemma {:induction false} KeptConcat(a: seq<string>, b: seq<string>)
    ensures Kept(a + b) == Kept(a) + Kept(b)
    decreases |b|
  {
    if b == [] {
      assert a + b == a;
    } else {
      KeptConcat(a, b[..|b| - 1]);
      assert (a + b)[..|a + b| - 1] == a + b[..|b| - 1];
    }
  }

  /** A line is kept, in its place, exactly when it cannot be read as a summary. */
  lemma {:induction false} KeptIffUnreadable(a: seq<string>, line: string, b: seq<string>)
    ensures Kept(a + [line] + b) == Kept(a) + (if ParseSummary(line).None? then [line] else []) + Kept(b)
  {
    KeptConcat(a + [line], b);
    KeptConcat(a, [line]);
    assert [line][..0] == [];
  }

  /** What is read from each line. */
  function Records(lines: seq<string>): (rs: seq<Option<Summary>>)
    ensures |rs| == |lines| && forall i | 0 <= i < |rs| :: rs[i] == ParseSummary(lines[i])
  {
    seq(|lines|, i requires 0 <= i < |lines| => ParseSummary(lines[i]))
  }

  predicate HasStart(r: Option<Summary>) { r.Some? && r.value.firstTimestamp != "" }

  predicate HasEnd(r: Option<Summary>) { r.Some? && r.value.lastTimestamp != "" }

  function StartOf(rs: seq<Option<Summary>>): string {
    if rs == [] then ""
    else if StartOf(rs[..|rs| - 1]) != "" then StartOf(rs[..|rs| - 1])
    else if rs[|rs| - 1].Some? then rs[|rs| - 1].value.firstTimestamp else ""
  }

  function EndOf(rs: seq<Option<Summary>>): string {
    if rs == [] then "" else if HasEnd(rs[|rs| - 1]) then rs[|rs| - 1].value.lastTimestamp else EndOf(rs[..|rs| - 1])
  }

  lemma {:induction false} MergedStamps(lines: seq<string>)
    ensures Merged(lines).firstTimestamp == StartOf(Records(lines)) && Merged(lines).lastTimestamp == EndOf(Records(lines))
  {
    if lines != [] {
      MergedStamps(lines[..|lines| - 1]);
      assert Records(lines)[..|lines| - 1] == Records(lines[..|lines| - 1]);
    }
  }

  lemma {:induction false} NoStart(rs: seq<Option<Summary>>)
    requires forall k | 0 <= k < |rs| :: !HasStart(rs[k])
    ensures StartOf(rs) == ""
  {
    if rs != [] { NoStart(rs[..|rs| - 1]); }
  }

  lemma {:induction false} StartIsAt(rs: seq<Option<Summary>>, first: nat)
    requires first < |rs| && HasStart(rs[first]) && forall k | 0 <= k < first :: !HasStart(rs[k])
    ensures StartOf(rs) == rs[first].value.firstTimestamp
  {
    var n := |rs| - 1;
    if first < n { StartIsAt(rs[..n], first); } else { NoStart(rs[..n]); }
  }

  lemma {:induction false} EndIsAt(rs: seq<Option<Summary>>, last: nat)
    requires last < |rs| && HasEnd(rs[last]) && forall k | last < k < |rs| :: !HasEnd(rs[k])
    ensures EndOf(rs) == rs[last].value.lastTimestamp
  {
    if last < |rs| - 1 { EndIsAt(rs[..|rs| - 1], last); }
  }

  /** The merged range starts with the first summary that has a range and ends with the last one that has. */
  lemma {:induction false} MergedRange(lines: seq<string>, rs: seq<Option<Summary>>, first: nat, last: nat)
    requires rs == Records(lines)
    requires first < |rs| && HasStart(rs[first]) && forall k | 0 <= k < first :: !HasStart(rs[k])
    requires last < |rs| && HasEnd(rs[last]) && forall k | last < k < |rs| :: !HasEnd(rs[k])
    ensures Merged(lines).firstTimestamp == rs[first].value.firstTimestamp && Merged(lines).lastTimestamp == rs[last].value.lastTimestamp
  {
    MergedStamps(lines);
    StartIsAt(rs, first);
    EndIsAt(rs, last);
  }

  ghost predicate DistinctIds(ops: seq<OpCount>) {
    forall i, j | 0 <= i < j < |ops| :: ops[i].operationId != ops[j].operationId
  }

  lemma {:induction false} BumpAddsOneId(ops: seq<OpCount>, id: string, ok: nat, fail: nat, x: string)
    requires x != id && forall c | c in ops :: c.operationId != x
    ensures forall c | c in Bump(ops, id, ok, fail) :: c.operationId != x
  {
    if ops != [] && ops[0].operationId != id {
      BumpAddsOneId(ops[1..], id, ok, fail, x);
    }
  }

  lemma {:induction false} BumpDistinct(ops: seq<OpCount>, id: string, ok: nat, fail: nat)
    requires DistinctIds(ops)
    ensures DistinctIds(Bump(ops, id, ok, fail))
  {
    if ops != [] && ops[0].operationId != id {
      var rest := ops[1..];
      BumpDistinct(rest, id, ok, fail);
      forall c | c in rest ensures c.operationId != ops[0].operationId {
        var i :| 0 <= i < |rest| && rest[i] == c;
        assert ops[i + 1] == c;
      }
      BumpAddsOneId(rest, id, ok, fail, ops[0].operationId);
    }
  }

  lemma {:induction false} MergeOpsDistinct(acc: seq<OpCount>, entries: seq<OpCount>)
    requires DistinctIds(acc)
    ensures DistinctIds(MergeOps(acc, entries))
    decreases |entries|
  {
    if entries != [] {
      BumpDistinct(acc, entries[0].operationId, entries[0].ok, entries[0].fail);
      MergeOpsDistinct(Bump(acc, entries[0].operationId, entries[0].ok, entries[0].fail), entries[1..]);
    }
  }

  lemma {:induction false} MergedIdsDistinct(lines: seq<string>)
    ensures DistinctIds(Merged(lines).byOperation)
    decreases |lines|
  {
    if lines != [] {
      var init, last := lines[..|lines| - 1], lines[|lines| - 1];
      MergedIdsDistinct(init);
      if IsRange(last) {
        MergeOpsDistinct(Merged(init).byOperation, ParseSummary(last).value.byOperation);
      }
    }
  }

  lemma {:induction false} BumpNew(ops: seq<OpCount>, c: OpCount)
    requires forall d | d in ops :: d.operationId != c.operationId
    requires c.ok < WORD && c.fail < WORD
    ensures Bump(ops, c.operationId, c.ok, c.fail) == ops + [c]
  {
    if ops != [] {
      assert ops[0] in ops;
      BumpNew(ops[1..], c);
      assert ops == [ops[0]] + ops[1..];
    }
  }

  /** Merging entries of new, distinct operations appends them as they are. */
  lemma {:induction false} MergeOpsNew(acc: seq<OpCount>, entries: seq<OpCount>)
    requires DistinctIds(acc + entries)
    requires forall c | c in entries :: c.ok < WORD && c.fail < WORD
    ensures MergeOps(acc, entries) == acc + entries
    decreases |entries|
  {
    if entries != [] {
      var c := entries[0];
      assert (acc + entries)[|acc|] == c && c in entries;
      forall d | d in acc ensures d.operationId != c.operationId {
        var i :| 0 <= i < |acc| && acc[i] == d;
        assert (acc + entries)[i] == d;
      }
      BumpNew(acc, c);
      assert acc + [c] + entries[1..] == acc + entries;
      MergeOpsNew(acc + [c], entries[1..]);
    }
  }

  /** Merging a fitting record with distinct ids into nothing gives that record. */
  lemma {:induction false} MergeIntoNothing(r: Summary)
    requires CountsFit(r) && DistinctIds(r.byOperation)
    ensures Merge(EMPTY, r) == r
  {
    forall c | c in r.byOperation ensures c.ok < WORD && c.fail < WORD {
      var i :| 0 <= i < |r.byOperation| && r.byOperation[i] == c;
      assert OpFits(r.byOperation[i]);
    }
    assert [] + r.byOperation == r.byOperation;
    MergeOpsNew([], r.byOperation);
  }

  lemma {:induction false} MergedOfOne(line: string)
    requires IsRange(line)
    ensures Merged([line]) == Merge(EMPTY, ParseSummary(line).value) && Ranges([line]) == 1 && Kept([line]) == []
  {
    assert [line][..0] == [];
  }

  lemma {:induction false} MergedLineMerges(lines: seq<string>)
    requires AllOneLine(lines) && NoOverflow(lines)
    ensures var line := FormatSummary(Merged(lines));
            IsRange(line) && Merged([line]) == Merged(lines) && Ranges([line]) == 1 && Kept([line]) == []
  {
    MergedLineParses(lines);
    MergedCountsFit(lines);
    MergedIdsDistinct(lines);
    MergeIntoNothing(Merged(lines));
    MergedOfOne(FormatSummary(Merged(lines)));
  }

  /** A folded file merges into what the original file merged into. */
  lemma {:induction false} FoldKeepsMerged(lines: seq<string>)
    requires AllOneLine(lines) && NoOverflow(lines)
    ensures Merged(FoldLines(lines)) == Merged(lines)
    ensures Ranges(FoldLines(lines)) == if Ranges(lines) <= 1 then Ranges(lines) else 1
    ensures Kept(FoldLines(lines)) == Kept(lines)
  {
    if Ranges(lines) > 1 {
      MergedLineMerges(lines);
      KeptIsUnparsable(lines);
      TailAddsNothing([FormatSummary(Merged(lines))], Kept(lines));
    }
  }

  lemma {:induction false} AnalyzeIsMerged(lines: seq<string>)
    requires |lines| < WORD
    ensures var m := Merged(lines);
            Analyze(lines) == Totals(Ranges(lines), m.total, m.ok, m.fail, m.unparsed, |Kept(lines)|, m.firstTimestamp, m.lastTimestamp)
    decreases |lines|
  {
    if lines != [] {
      AnalyzeIsMerged(lines[..|lines| - 1]);
    }
  }

  /** Folding changes no field of the review but the number of ranges. */
  lemma {:induction false} FoldKeepsTotals(lines: seq<string>)
    requires AllOneLine(lines) && NoOverflow(lines) && |lines| < WORD
    ensures Analyze(FoldLines(lines)) == Analyze(lines).(ranges := Analyze(FoldLines(lines)).ranges)
    ensures Analyze(FoldLines(lines)).ranges == if Analyze(lines).ranges <= 1 then Analyze(lines).ranges else 1
  {
    FoldKeepsMerged(lines);
    AnalyzeIsMerged(lines);
    AnalyzeIsMerged(FoldLines(lines));
  }

  lemma {:induction false} TailSumsNothing(lines: seq<string>, tail: seq<string>, id: string, ok: bool, f: Field)
    requires forall l | l in tail :: !IsRange(l)
    ensures Summarized(lines + tail, id, ok) == Summarized(lines, id, ok) && Sum(lines + tail, f) == Sum(lines, f)
    decreases |tail|
  {
    if tail == [] {
      assert lines + tail == lines;
    } else {
      assert tail[|tail| - 1] in tail;
      assert (lines + tail)[..|lines + tail| - 1] == lines + tail[..|tail| - 1];
      TailSumsNothing(lines, tail[..|tail| - 1], id, ok, f);
    }
  }

  /** Folding changes no operation's count. */
  lemma {:induction false} FoldKeepsCounts(lines: seq<string>, id: string, ok: bool)
    requires AllOneLine(lines) && NoOverflow(lines)
    ensures Summarized(FoldLines(lines), id, ok) == Summarized(lines, id, ok)
  {
    if Ranges(lines) > 1 {
      var line := FormatSummary(Merged(lines));
      MergedLineParses(lines);
      KeptIsUnparsable(lines);
      TailSumsNothing([line], Kept(lines), id, ok, Total);
      assert [line][..0] == [];
      MergedTalliesAreSums(lines, id, ok);
    }
  }

  /** Folding twice is folding once, for every file, overflow or not. */
  lemma {:induction false} FoldIsIdempotent(lines: seq<string>)
    ensures FoldLines(FoldLines(lines)) == FoldLines(lines)
  {
    if Ranges(lines) > 1 {
      KeptIsUnparsable(lines);
      TailAddsNothing([FormatSummary(Merged(lines))], Kept(lines));
      assert [FormatSummary(Merged(lines))][..0] == [];
    }
  }

  // ---------- when a fold keeps the sums ----------

  lemma {:induction false} AbsentHasNoTally(ops: seq<OpCount>, id: string, ok: bool)
    requires forall c | c in ops :: c.operationId != id
    ensures Tally(ops, id, ok) == 0
  {
    if ops != [] {
      assert ops[0] in ops;
      AbsentHasNoTally(ops[1..], id, ok);
    }
  }

  lemma {:induction false} DistinctTallyFits(ops: seq<OpCount>, id: string, ok: bool)
    requires DistinctIds(ops) && OpsFit(ops)
    ensures Tally(ops, id, ok) < PARSE_LIMIT
    decreases |ops|
  {
    if ops != [] {
      var rest := ops[1..];
      assert OpFits(ops[0]);
      assert OpsFit(rest) by { forall i | 0 <= i < |rest| ensures OpFits(rest[i]) { assert OpFits(ops[i + 1]); } }
      DistinctTallyFits(rest, id, ok);
      forall c | c in rest ensures c.operationId != ops[0].operationId {
        var i :| 0 <= i < |rest| && rest[i] == c;
        assert ops[i + 1] == c;
      }
      if ops[0].operationId == id { AbsentHasNoTally(rest, id, ok); }
    }
  }

  /** What a folded file says: the merged record if its line can be read back, and nothing at all otherwise. */
  lemma {:induction false} FoldedFileSays(lines: seq<string>, id: string, ok: bool, f: Field)
    requires AllOneLine(lines) && Ranges(lines) > 1
    ensures var m := Merged(lines);
            && Sum(FoldLines(lines), f) == (if CountsFit(m) then FieldOf(m, f) else 0)
            && Summarized(FoldLines(lines), id, ok) == (if CountsFit(m) then Tally(m.byOperation, id, ok) else 0)
  {
    var line := FormatSummary(Merged(lines));
    MergedIsPrintable(lines);
    SummaryRoundTrip(Merged(lines));
    KeptIsUnparsable(lines);
    TailSumsNothing([line], Kept(lines), id, ok, f);
    assert [line][..0] == [];
  }

  ghost predicate KeepsSums(before: seq<string>, after: seq<string>) {
    && (forall f :: Sum(after, f) == Sum(before, f))
    && forall id, ok :: Summarized(after, id, ok) == Summarized(before, id, ok)
  }

  lemma {:induction false} FoldedSumsAreSmall(lines: seq<string>, id: string, ok: bool, f: Field)
    requires AllOneLine(lines) && Ranges(lines) > 1
    ensures Sum(FoldLines(lines), f) < PARSE_LIMIT && Summarized(FoldLines(lines), id, ok) < PARSE_LIMIT
  {
    FoldedFileSays(lines, id, ok, f);
    MergedIdsDistinct(lines);
    if CountsFit(Merged(lines)) { DistinctTallyFits(Merged(lines).byOperation, id, ok); }
  }

  /** A fold that rewrites keeps every true sum if and only if none of them reaches the parser's limit. */
  lemma {:induction false} FoldKeepsSumsIff(lines: seq<string>)
    requires AllOneLine(lines) && Ranges(lines) > 1
    ensures KeepsSums(lines, FoldLines(lines)) <==> NoOverflow(lines)
  {
    if NoOverflow(lines) {
      MergedCountsFit(lines);
      forall f ensures Sum(FoldLines(lines), f) == Sum(lines, f) {
        FoldedFileSays(lines, "", true, f);
        MergedFieldsAreSums(lines, f);
      }
      forall id, ok ensures Summarized(FoldLines(lines), id, ok) == Summarized(lines, id, ok) { FoldKeepsCounts(lines, id, ok); }
    } else if KeepsSums(lines, FoldLines(lines)) {
      forall f ensures Sum(lines, f) < PARSE_LIMIT { FoldedSumsAreSmall(lines, "", true, f); }
      forall id, ok ensures Summarized(lines, id, ok) < PARSE_LIMIT { FoldedSumsAreSmall(lines, id, ok, Total); }
    }
  }
}
