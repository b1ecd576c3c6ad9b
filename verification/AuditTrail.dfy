/**
  The audit trail as two files, compaction and folding with every reported failure, and the
  conservation law over whole runs: no count is ever lost (source/audit/audit_log.cpp).
  A missing file is an empty one; a file is its bytes.
 */
module AuditTrail {
  import opened Text
  import opened AuditLines
  import opened AuditSummaryCodec
  import opened AuditFold

  const MAX_AUDIT_READ: nat := 8 * 1024 * 1024
  const MAX_SUMMARY_READ: nat := 64 * 1024 * 1024

  datatype Options = Options(maxBytes: nat, maxLines: nat, keepTailLines: nat, summaryMaxBytes: nat)

  const DEFAULTS := Options(10 * 1024 * 1024, 20000, 2000, 50 * 1024 * 1024)

  datatype Trail = Trail(audit: string, summary: string)

  /**
    How far a compaction gets: to the end; stopped because the audit file cannot be queried or
    read; stopped later, before the summary file is touched; stopped
    between the summary append and the replacement (a crash, a flush that fails after the bytes
    are out, or a rollback that fails as well); or the replacement fails and is rolled back to
    the size queried before, which is 0 when that query had failed.
   */
  datatype CompactFault = NoFault | CannotRead | BeforeSummary | AfterSummary | ReplaceFailed(sizeKnown: bool)

  /**
    The fold completes; stops because the summary file cannot be queried, or not be read; stops at
    its replacement; or reports the failure of its own record, whose line may be out all the same.
   */
  datatype FoldFault = FoldDone | FoldCannotQuery | FoldCannotRead | FoldReplaceFailed | FoldRecordFailed(lineIsOut: bool)

  /** The fold got as far as replacing the file. */
  predicate Replaces(fault: FoldFault) { fault.FoldDone? || fault.FoldRecordFailed? }

  const SUMMARY_SUFFIX := "-summary"

  /** The audit file that a summary file belongs to; None when its name does not say so. */
  function AuditNameFor(stem: string, extension: string): Option<string> {
    var n := |stem| - |SUMMARY_SUFFIX|;
    if n > 0 && stem[n..] == SUMMARY_SUFFIX then Some(stem[..n] + extension) else None
  }

  /** The summary of an audit file leads back to it. */
  lemma {:induction false} SummaryLeadsBack(stem: string, extension: string)
    requires stem != ""
    ensures AuditNameFor(stem + SUMMARY_SUFFIX, extension) == Some(stem + extension)
  {
    assert (stem + SUMMARY_SUFFIX)[|stem|..] == SUMMARY_SUFFIX && (stem + SUMMARY_SUFFIX)[..|stem|] == stem;
  }

  /** A summary file has an audit file exactly when its name is a non-empty one with the suffix. */
  lemma {:induction false} OnlySummariesLeadBack(stem: string, extension: string)
    ensures AuditNameFor(stem, extension).Some? <==> exists base :: base != "" && stem == base + "-summary"
  {
    if AuditNameFor(stem, extension).Some? {
      var n := |stem| - |SUMMARY_SUFFIX|;
      assert stem[..n] != "" && stem == stem[..n] + "-summary";
    }
    if base :| base != "" && stem == base + "-summary" { SummaryLeadsBack(base, extension); }
  }

  /** A record is written only where there is an audit file to write it to. */
  predicate RecordIsOut(name: Option<string>, fault: FoldFault) {
    name.Some? && (fault.FoldDone? || (fault.FoldRecordFailed? && fault.lineIsOut))
  }

  // ---------- compaction ----------

  predicate ShouldCompact(bytes: nat, lines: nat, o: Options) {
    (o.maxBytes > 0 && bytes >= o.maxBytes) || (o.maxLines > 0 && lines >= o.maxLines)
  }

  /** The lines of a head that no aggregation can stand for. */
  function Unparsable(lines: seq<string>): (kept: seq<string>)
    ensures |kept| <= |lines|
  {
    if lines == [] then [] else UnparsableStart(lines[0]) + Unparsable(lines[1..])
  }

  /** The line, if it cannot be read. */
  function UnparsableStart(line: string): (kept: seq<string>)
    ensures |kept| <= 1
  {
    if ParsePrefix(line).Some? then [] else [line]
  }

  function HeadCount(lines: nat, o: Options): (n: nat)
    ensures n <= lines
  {
    if o.keepTailLines < lines then lines - o.keepTailLines else 0
  }

  function Head(t: Trail, o: Options): seq<string> {
    var lines := Lines(t.audit);
    lines[..HeadCount(|lines|, o)]
  }

  function Retained(t: Trail, o: Options): seq<string> {
    var lines := Lines(t.audit);
    Unparsable(Head(t, o)) + lines[HeadCount(|lines|, o)..]
  }

  /** The file is readable, a threshold is reached and something can be aggregated. */
  predicate Compacts(t: Trail, o: Options) {
    var lines := Lines(t.audit);
    && |t.audit| <= MAX_AUDIT_READ
    && ShouldCompact(|t.audit|, |lines|, o)
    && Retained(t, o) != lines
  }

  /** The numbers a compaction writes into its own record: lines before and after, aggregated and kept. */
  function CompactNumbers(t: Trail, o: Options): (nat, nat, nat, nat) {
    var s := Summarize(Head(t, o));
    (|Lines(t.audit)|, |Retained(t, o)| + 1, s.total, s.unparsed)
  }

  function CompactDetail(n: (nat, nat, nat, nat), o: Options): string {
    "before=" + Decimal(n.0) + " after=" + Decimal(n.1) + " summarized=" + Decimal(n.2) + " unparsed=" + Decimal(n.3)
    + " threshold_bytes=" + Decimal(o.maxBytes) + " threshold_lines=" + Decimal(o.maxLines)
  }

  function CompactRecord(t: Trail, o: Options, file: string): Record {
    Record("audit.compact", R0, "audit", file, CompactDetail(CompactNumbers(t, o), o), true)
  }

  function CompactedAudit(t: Trail, o: Options, file: string, clock: string): string {
    Unlines(Retained(t, o) + [FormatLine(CompactRecord(t, o, file), clock)])
  }

  function ExtendedSummary(t: Trail, o: Options): string {
    t.summary + (FormatSummary(Summarize(Head(t, o))) + "\n")
  }

  function CompactStep(t: Trail, o: Options, file: string, clock: string, fault: CompactFault): Trail {
    if Compacts(t, o) then RewriteStep(t, o, file, clock, fault) else t
  }

  /** The two files after a compaction that has something to rewrite. */
  function RewriteStep(t: Trail, o: Options, file: string, clock: string, fault: CompactFault): Trail {
    match fault
    case NoFault => Trail(CompactedAudit(t, o, file, clock), ExtendedSummary(t, o))
    case CannotRead => t
    case BeforeSummary => t
    case AfterSummary => Trail(t.audit, ExtendedSummary(t, o))
    case ReplaceFailed(sizeKnown) => Trail(t.audit, ExtendedSummary(t, o)[..if sizeKnown then |t.summary| else 0])
  }

  lemma {:induction false} RewriteStepIs(t: Trail, o: Options, file: string, clock: string, fault: CompactFault, u: Trail)
    requires fault.NoFault? || fault.ReplaceFailed?
    requires u.audit == if fault.NoFault? then CompactedAudit(t, o, file, clock) else t.audit
    requires u.summary == if fault.NoFault? then ExtendedSummary(t, o)
                          else ExtendedSummary(t, o)[..if fault == ReplaceFailed(false) then 0 else |t.summary|]
    ensures u == RewriteStep(t, o, file, clock, fault)
  {
  }

  // ---------- folding and appending ----------

  predicate Folds(t: Trail, o: Options) {
    && o.summaryMaxBytes != 0 && o.summaryMaxBytes <= |t.summary| <= MAX_SUMMARY_READ
    && Ranges(Lines(t.summary)) > 1
  }

  function FoldRecord(t: Trail, o: Options, name: Option<string>): Record {
    var lines := Lines(t.summary);
    Record("audit.fold", R0, "audit", if name.Some? then name.value else "",
           "merged_ranges=" + Decimal(Ranges(lines)) + " before=" + Decimal(|lines|)
           + " after=" + Decimal(1 + |Kept(lines)|) + " unparsable_kept=" + Decimal(|Kept(lines)|)
           + " summary_max_bytes=" + Decimal(o.summaryMaxBytes), true)
  }

  function AppendStep(t: Trail, r: Record, clock: string, written: bool): Trail {
    if written then t.(audit := t.audit + (FormatLine(r, clock) + "\n")) else t
  }

  function FoldStep(t: Trail, o: Options, name: Option<string>, clock: string, fault: FoldFault): Trail {
    if !Folds(t, o) || !Replaces(fault) then t
    else AppendStep(t.(summary := Unlines(FoldLines(Lines(t.summary)))), FoldRecord(t, o, name), clock, RecordIsOut(name, fault))
  }

  // ---------- the files changed in place ----------

  datatype CompactResult =
    | CompactFailed
    | CompactOk(compacted: bool, beforeLines: nat, afterLines: nat, summarizedLines: nat, unparsedKept: nat)

  /** What a compaction that does not fail reports. */
  function CompactReport(t: Trail, o: Options): CompactResult {
    var n, s := |Lines(t.audit)|, Summarize(Head(t, o));
    if !ShouldCompact(|t.audit|, n, o) then CompactOk(false, n, n, 0, 0)
    else if Retained(t, o) == Lines(t.audit) then CompactOk(false, n, n, 0, s.unparsed)
    else CompactOk(true, n, |Retained(t, o)| + 1, s.total, s.unparsed)
  }

  predicate CompactFails(t: Trail, o: Options, fault: CompactFault) {
    fault.CannotRead? || |t.audit| > MAX_AUDIT_READ || (Compacts(t, o) && !fault.NoFault?)
  }

  datatype FoldResult =
    | FoldFailed
    | FoldOk(folded: bool, beforeLines: nat, afterLines: nat, mergedRanges: nat, unparsableKept: nat)

  /** What a fold that does not fail reports. */
  function FoldReport(t: Trail, o: Options): FoldResult {
    var lines := Lines(t.summary);
    if o.summaryMaxBytes == 0 || |t.summary| < o.summaryMaxBytes then FoldOk(false, 0, 0, 0, 0)
    else FoldOk(Ranges(lines) > 1, |lines|, |FoldLines(lines)|, Ranges(lines), |Kept(lines)|)
  }

  /** A file over the cap is refused; below its limit the file is not even read. */
  predicate FoldFails(t: Trail, o: Options, name: Option<string>, fault: FoldFault) {
    || fault.FoldCannotQuery?
    || (o.summaryMaxBytes != 0 && |t.summary| >= o.summaryMaxBytes
        && (|t.summary| > MAX_SUMMARY_READ || fault.FoldCannotRead? || (Folds(t, o) && !Completes(name, fault))))
  }

  /** Replaced, and recorded where that is possible. */
  predicate Completes(name: Option<string>, fault: FoldFault) { fault.FoldDone? || (fault.FoldRecordFailed? && name.None?) }

  class AuditStore {
    var audit: string
    var summary: string

    ghost function State(): Trail reads this { Trail(audit, summary) }

    constructor (a: string, s: string)
      ensures State() == Trail(a, s)
    {
      audit, summary := a, s;
    }

    /** `written` says whether the line reached the file, `flushed` whether the flush reported so. */
    method AppendAuditLine(r: Record, clock: string, written: bool, flushed: bool) returns (ok: bool)
      modifies this
      ensures ok == (written && flushed) && State() == AppendStep(old(State()), r, clock, written)
    {
      if !written { return false; }
      audit := audit + (FormatLine(r, clock) + "\n");
      return flushed;
    }

    method CompactAuditFile(o: Options, file: string, clock: string, fault: CompactFault) returns (r: CompactResult)
      modifies this
      ensures State() == CompactStep(old(State()), o, file, clock, fault)
      ensures r == if CompactFails(old(State()), o, fault) then CompactFailed else CompactReport(old(State()), o)
    {
      if fault.CannotRead? || |audit| > MAX_AUDIT_READ { return CompactFailed; }
      var lines := Lines(audit);
      if !ShouldCompact(|audit|, |lines|, o) { return CompactOk(false, |lines|, |lines|, 0, 0); }
      var keep := if o.keepTailLines < |lines| then o.keepTailLines else |lines|;
      var headCount := |lines| - keep;
      var head := lines[..headCount];
      var total := SummarizeAuditLines(head);
      var retained := KeepUnparsable(head);
      retained := retained + lines[headCount..];
      assert head == Head(State(), o) && retained == Retained(State(), o);
      if retained == lines { return CompactOk(false, |lines|, |lines|, 0, total.unparsed); }
      var ok := RewriteFiles(o, file, clock, fault, retained, total);
      return if ok then CompactOk(true, |lines|, |retained| + 1, total.total, total.unparsed) else CompactFailed;
    }

    /** The content of the temporary file: what is retained and the own record. */
    method NewContent(o: Options, file: string, clock: string, retained: seq<string>) returns (content: string)
      requires retained == Retained(State(), o)
      ensures content == CompactedAudit(State(), o, file, clock)
    {
      var self := FormatLine(CompactRecord(Trail(audit, summary), o, file), clock);
      content := WriteLines(retained + [self]);
    }

    method AppendSummaryLine(o: Options, total: Summary)
      requires total == Summarize(Head(State(), o))
      modifies this`summary
      ensures summary == ExtendedSummary(old(State()), o) && |summary| >= |old(summary)|
    {
      var line := FormatAuditSummaryLine(total);
      summary := summary + (line + "\n");
    }

    /** The replacement of the audit file; if it fails the summary file is cut back. */
    method ReplaceAudit(temp: string, summaryBefore: nat, failed: bool) returns (ok: bool)
      requires summaryBefore <= |summary|
      modifies this
      ensures ok == !failed && audit == (if failed then old(audit) else temp)
      ensures summary == if failed then old(summary)[..summaryBefore] else old(summary)
    {
      if failed {
        summary := summary[..summaryBefore];
        return false;
      }
      audit := temp;
      return true;
    }

    /** Temporary file, summary line, replacement; a failed replacement cuts the summary file back. */
    method RewriteFiles(o: Options, file: string, clock: string, fault: CompactFault, retained: seq<string>, total: Summary) returns (ok: bool)
      requires retained == Retained(State(), o) && total == Summarize(Head(State(), o)) && !fault.CannotRead?
      modifies this
      ensures State() == RewriteStep(old(State()), o, file, clock, fault) && ok == fault.NoFault?
    {
      var temp := NewContent(o, file, clock, retained);
      if fault.BeforeSummary? { return false; }
      ghost var t := State();
      var summaryBefore := if fault == ReplaceFailed(false) then 0 else |summary|;
      AppendSummaryLine(o, total);
      if fault.AfterSummary? { return false; }
      ok := ReplaceAudit(temp, summaryBefore, fault.ReplaceFailed?);
      RewriteStepIs(t, o, file, clock, fault, State());
    }

    method FoldAuditSummaryFile(o: Options, stem: string, extension: string, clock: string, fault: FoldFault) returns (r: FoldResult)
      modifies this
      ensures State() == FoldStep(old(State()), o, AuditNameFor(stem, extension), clock, fault)
      ensures r == if FoldFails(old(State()), o, AuditNameFor(stem, extension), fault) then FoldFailed else FoldReport(old(State()), o)
    {
      if fault.FoldCannotQuery? { return FoldFailed; }
      if o.summaryMaxBytes == 0 || |summary| < o.summaryMaxBytes { return FoldOk(false, 0, 0, 0, 0); }
      if |summary| > MAX_SUMMARY_READ || fault.FoldCannotRead? { return FoldFailed; }
      r := FoldReadable(o, AuditNameFor(stem, extension), clock, fault);
    }

    method FoldReadable(o: Options, name: Option<string>, clock: string, fault: FoldFault) returns (r: FoldResult)
      requires o.summaryMaxBytes != 0 && o.summaryMaxBytes <= |summary| <= MAX_SUMMARY_READ && !fault.FoldCannotQuery? && !fault.FoldCannotRead?
      modifies this
      ensures State() == FoldStep(old(State()), o, name, clock, fault)
      ensures r == if FoldFails(old(State()), o, name, fault) then FoldFailed else FoldReport(old(State()), o)
    {
      var lines := Lines(summary);
      var ranges, kept, temp := FoldedContent(lines);
      FoldedLength(lines);
      if ranges == 0 || 1 + kept >= |lines| { return FoldOk(false, |lines|, |lines|, ranges, kept); }
      assert Folds(State(), o);
      var ok := ReplaceSummary(o, name, clock, fault, temp);
      return if ok then FoldOk(true, |lines|, 1 + kept, ranges, kept) else FoldFailed;
    }

    method ReplaceSummary(o: Options, name: Option<string>, clock: string, fault: FoldFault, temp: string) returns (ok: bool)
      requires Folds(State(), o) && temp == Unlines(FoldLines(Lines(summary))) && (Replaces(fault) || fault.FoldReplaceFailed?)
      modifies this
      ensures State() == FoldStep(old(State()), o, name, clock, fault) && ok == Completes(name, fault)
    {
      if fault.FoldReplaceFailed? { return false; }
      var record := FoldRecord(Trail(audit, summary), o, name);
      summary := temp;
      if name.None? { return true; }
      ok := AppendAuditLine(record, clock, fault.FoldDone? || fault.lineIsOut, fault.FoldDone?);
    }
  }

  lemma {:induction false} FoldedLength(lines: seq<string>)
    ensures |FoldLines(lines)| == if Ranges(lines) > 1 then 1 + |Kept(lines)| else |lines|
    ensures Ranges(lines) > 1 <==> Ranges(lines) != 0 && 1 + |Kept(lines)| < |lines|
  {
  }

  /** Reads and merges the lines; the content to write if that leaves fewer lines. */
  method FoldedContent(lines: seq<string>) returns (ranges: nat, kept: nat, content: string)
    ensures ranges == Ranges(lines) && kept == |Kept(lines)|
    ensures ranges > 1 ==> content == Unlines(FoldLines(lines))
  {
    var merged, unparsable;
    merged, unparsable, ranges := MergeSummaryLines(lines);
    kept := |unparsable|;
    var line := FormatAuditSummaryLine(merged);
    content := WriteLines([line] + unparsable);
  }

  method WriteLines(lines: seq<string>) returns (content: string)
    ensures content == Unlines(lines)
  {
    content := [];
    for i := 0 to |lines|
      invariant content + Unlines(lines[i..]) == Unlines(lines)
    {
      assert lines[i..][0] == lines[i] && lines[i..][1..] == lines[i + 1..];
      Associate(content, lines[i] + "\n", Unlines(lines[i + 1..]));
      content := content + (lines[i] + "\n");
    }
  }

  method KeepUnparsable(lines: seq<string>) returns (kept: seq<string>)
    ensures kept == Unparsable(lines)
  {
    kept := [];
    for i := 0 to |lines|
      invariant kept + Unparsable(lines[i..]) == Unparsable(lines)
    {
      ghost var rest := Unparsable(lines[i + 1..]);
      assert lines[i..][0] == lines[i] && lines[i..][1..] == lines[i + 1..];
      if ParsePrefix(lines[i]).None? {
        assert Unparsable(lines[i..]) == [lines[i]] + rest;
        Associate(kept, [lines[i]], rest);
        kept := kept + [lines[i]];
      } else {
        assert Unparsable(lines[i..]) == [] + rest == rest;
      }
    }
  }

  // ---------- what the trail records ----------

  /** Records of an operation with a result: those still in the audit file and those in summaries. */
  function Recorded(t: Trail, id: string, ok: bool): nat {
    Live(Lines(t.audit), id, ok) + Summarized(Lines(t.summary), id, ok)
  }

  ghost predicate ClockIsFine(clock: string) { clock == [] || PlainTimestamp(clock) }

  ghost predicate LineIsFine(line: string) {
    ParsePrefix(line).Some? ==> HidesNoMarker(ParsePrefix(line).value.timestamp) && !OpensWithDots(ParsePrefix(line).value.timestamp)
                                && PlainId(ParsePrefix(line).value.operationId)
  }

  ghost predicate LinesAreFine(lines: seq<string>) { forall l | l in lines :: LineIsFine(l) }

  /** No time stamp hides the marker of a summary; otherwise stamps and ids are whatever they are. */
  ghost predicate StampsAreFine(lines: seq<string>) {
    forall l | l in lines && ParsePrefix(l).Some? :: HidesNoMarker(ParsePrefix(l).value.timestamp)
  }

  /** The time stamp of the first parsable line. */
  function FirstStamp(lines: seq<string>): string {
    if lines == [] then ""
    else if ParsePrefix(lines[0]).Some? then ParsePrefix(lines[0]).value.timestamp
    else FirstStamp(lines[1..])
  }

  /** The summary of these lines can be read back. */
  ghost predicate IsReadable(lines: seq<string>) { HasPlainIds(lines) && !OpensWithDots(FirstStamp(lines)) }

  /** No parsable line names an operation with '=' in its id. */
  ghost predicate HasPlainIds(lines: seq<string>) {
    forall l | l in lines && ParsePrefix(l).Some? :: '=' !in ParsePrefix(l).value.operationId
  }

  /**
    Both files end in a newline, and every parsable audit line carries a plain id and a time stamp that
    neither hides a summary's marker nor opens with dots; unparsable audit lines and all summary
    lines are arbitrary.
   */
  ghost predicate WellFormed(t: Trail) {
    Terminated(t.audit) && Terminated(t.summary) && LinesAreFine(Lines(t.audit))
  }

  /** A record as the run's events may write it. */
  ghost predicate RecordIsFine(r: Record) { PlainId(Sanitized(r.operationId)) }

  // ---------- compaction conserves ----------

  lemma {:induction false} UnparsableConcat(a: seq<string>, b: seq<string>)
    ensures Unparsable(a + b) == Unparsable(a) + Unparsable(b)
  {
    if a == [] {
      assert a + b == b;
    } else {
      assert (a + b)[0] == a[0] && (a + b)[1..] == a[1..] + b;
      UnparsableConcat(a[1..], b);
      Associate(UnparsableStart(a[0]), Unparsable(a[1..]), Unparsable(b));
    }
  }

  lemma {:induction false} UnparsableLines(lines: seq<string>)
    ensures forall l | l in Unparsable(lines) :: l in lines && ParsePrefix(l).None?
  {
    if lines != [] { UnparsableLines(lines[1..]); }
  }

  lemma {:induction false} UnparsableIsDead(lines: seq<string>, id: string, ok: bool)
    requires forall l | l in lines :: ParsePrefix(l).None?
    ensures Live(lines, id, ok) == 0 && Unparsable(lines) == lines
  {
    if lines != [] {
      assert lines[0] in lines;
      UnparsableIsDead(lines[1..], id, ok);
      assert lines == [lines[0]] + lines[1..];
    }
  }

  lemma {:induction false} SummarizeIsLoose(lines: seq<string>)
    requires StampsAreFine(lines) && AllOneLine(lines)
    ensures Loose(Summarize(lines))
    decreases |lines|
  {
    if lines != [] {
      var init, last := lines[..|lines| - 1], lines[|lines| - 1];
      SummarizeIsLoose(init);
      assert last in lines;
      if ParsePrefix(last).Some? {
        var p := ParsePrefix(last).value;
        ParsedIdIsAWord(last);
        ParsedStampIsOneLine(last);
        assert LastIsClean(p.timestamp);
        BumpKeepsWordIds(Summarize(init).byOperation, p.operationId, if p.ok then 1 else 0, if p.ok then 0 else 1);
      }
    }
  }

  lemma {:induction false} ParsedStampIsOneLine(line: string)
    requires ParsePrefix(line).Some? && OneLine(line)
    ensures OneLine(ParsePrefix(line).value.timestamp)
  {
    var t := ParsePrefix(line).value.timestamp;
    assert forall c | c in t :: c in line;
  }

  lemma {:induction false} FirstStampSnoc(lines: seq<string>, line: string)
    ensures FirstStamp(lines + [line]) == if FirstStamp(lines) != "" || ParsePrefix(line).None? then FirstStamp(lines) else ParsePrefix(line).value.timestamp
    requires OneLine(line) && AllOneLine(lines)
    decreases |lines|
  {
    if lines == [] {
      assert lines + [line] == [line];
    } else {
      assert (lines + [line])[1..] == lines[1..] + [line];
      assert lines[0] in lines;
      if ParsePrefix(lines[0]).Some? { ParsedIdIsAWord(lines[0]); } else { FirstStampSnoc(lines[1..], line); }
    }
  }

  /** The summary starts at the first parsable line. */
  lemma {:induction false} SummaryStartsAtFirstStamp(lines: seq<string>)
    requires AllOneLine(lines)
    ensures Summarize(lines).firstTimestamp == FirstStamp(lines)
    decreases |lines|
  {
    if lines != [] {
      var init, last := lines[..|lines| - 1], lines[|lines| - 1];
      assert lines == init + [last] && last in lines;
      SummaryStartsAtFirstStamp(init);
      FirstStampSnoc(init, last);
    }
  }

  lemma {:induction false} PlainLinesGivePlainIds(lines: seq<string>)
    requires HasPlainIds(lines) && AllOneLine(lines)
    ensures IdsArePlain(Summarize(lines).byOperation)
    decreases |lines|
  {
    if lines != [] {
      var init, last := lines[..|lines| - 1], lines[|lines| - 1];
      PlainLinesGivePlainIds(init);
      assert last in lines;
      if ParsePrefix(last).Some? {
        var p := ParsePrefix(last).value;
        ParsedIdIsAWord(last);
        BumpKeepsPlainIds(Summarize(init).byOperation, p.operationId, if p.ok then 1 else 0, if p.ok then 0 else 1);
      }
    }
  }

  /** An id of some line is the id of some entry. */
  lemma {:induction false} OddLineGivesOddId(lines: seq<string>, line: string)
    requires |lines| < WORD && line in lines && ParsePrefix(line).Some? && '=' in ParsePrefix(line).value.operationId
    ensures !OpsFit(Summarize(lines).byOperation)
  {
    var p := ParsePrefix(line).value;
    LiveWitness(lines, line);
    SummarizeCounts(lines, p.operationId, p.ok);
    var c := TallyWitness(Summarize(lines).byOperation, p.operationId, p.ok);
    var i :| 0 <= i < |Summarize(lines).byOperation| && Summarize(lines).byOperation[i] == c;
    assert !OpFits(Summarize(lines).byOperation[i]);
  }

  lemma {:induction false} PlainEntriesFit(lines: seq<string>, c: OpCount)
    requires |lines| < PARSE_LIMIT && c in Summarize(lines).byOperation && '=' !in c.operationId
    ensures OpFits(c)
  {
    var ops := Summarize(lines).byOperation;
    TallyCovers(ops, c, true);
    TallyCovers(ops, c, false);
    SummarizeCounts(lines, c.operationId, true);
    SummarizeCounts(lines, c.operationId, false);
  }

  /** Counts of lines always fit, so a summary can be read back exactly when no line names an id with '='. */
  lemma {:induction false} SummarizeFitsIff(lines: seq<string>)
    requires AllOneLine(lines) && |lines| < PARSE_LIMIT
    ensures CountsFit(Summarize(lines)) <==> HasPlainIds(lines)
  {
    var s := Summarize(lines);
    SummarizeCounts(lines, "", true);
    if HasPlainIds(lines) {
      PlainLinesGivePlainIds(lines);
      forall i | 0 <= i < |s.byOperation| ensures OpFits(s.byOperation[i]) {
        assert s.byOperation[i] in s.byOperation;
        PlainEntriesFit(lines, s.byOperation[i]);
      }
    } else {
      var line :| line in lines && ParsePrefix(line).Some? && '=' in ParsePrefix(line).value.operationId;
      OddLineGivesOddId(lines, line);
    }
  }

  lemma {:induction false} SummarizedAppend(lines: seq<string>, line: string, id: string, ok: bool)
    ensures Summarized(lines + [line], id, ok) == Summarized(lines, id, ok) + TallyOf(line, id, ok)
  {
    assert (lines + [line])[..|lines|] == lines;
  }

  lemma {:induction false} HeadLineIs(lines: seq<string>)
    requires StampsAreFine(lines) && AllOneLine(lines) && |lines| < PARSE_LIMIT
    ensures var line := FormatSummary(Summarize(lines));
            && OneLine(line) && (ParseSummary(line).Some? <==> IsReadable(lines))
            && (ParseSummary(line).Some? ==> SameCounts(ParseSummary(line).value, Summarize(lines)))
            && (ParseSummary(line).Some? && '.' !in FirstStamp(lines) ==> ParseSummary(line).value == Summarize(lines))
  {
    SummarizeIsLoose(lines);
    SummarizeFitsIff(lines);
    SummaryStartsAtFirstStamp(lines);
    LooseRoundTrip(Summarize(lines));
    FormatIsOneLine(Summarize(lines));
  }

  /** The summary line of a head stands for its parsable lines, or for nothing when it cannot be read. */
  lemma {:induction false} HeadSummaryCounts(t: Trail, o: Options, id: string, ok: bool)
    requires StampsAreFine(Head(t, o)) && Terminated(t.summary) && |t.audit| <= MAX_AUDIT_READ
    ensures Terminated(ExtendedSummary(t, o))
    ensures var line, head := FormatSummary(Summarize(Head(t, o))), Head(t, o);
            && Lines(ExtendedSummary(t, o)) == Lines(t.summary) + [line]
            && Summarized(Lines(ExtendedSummary(t, o)), id, ok)
               == Summarized(Lines(t.summary), id, ok) + if IsReadable(head) then Live(head, id, ok) else 0
  {
    var head := Head(t, o);
    LinesAreLines(t.audit);
    HeadLineIs(head);
    LinesAppend(t.summary, FormatSummary(Summarize(head)));
    SummarizedAppend(Lines(t.summary), FormatSummary(Summarize(head)), id, ok);
    SummarizeCounts(head, id, ok);
  }

  /** For a well-formed trail: the summary line is read back with every count of the head, and whole if its stamps have no dots. */
  lemma {:induction false} SummaryLineStandsForHead(t: Trail, o: Options, id: string, ok: bool)
    requires WellFormed(t) && |t.audit| <= MAX_AUDIT_READ
    ensures Terminated(ExtendedSummary(t, o))
    ensures var line, head := FormatSummary(Summarize(Head(t, o))), Head(t, o);
            && IsRange(line) && SameCounts(ParseSummary(line).value, Summarize(head))
            && ('.' !in FirstStamp(head) ==> ParseSummary(line) == Some(Summarize(head)))
            && Lines(ExtendedSummary(t, o)) == Lines(t.summary) + [line]
            && Summarized(Lines(ExtendedSummary(t, o)), id, ok) == Summarized(Lines(t.summary), id, ok) + Live(head, id, ok)
  {
    FineIsReadable(Head(t, o));
    LinesAreLines(t.audit);
    HeadLineIs(Head(t, o));
    HeadSummaryCounts(t, o, id, ok);
  }

  lemma {:induction false} SelfIdsArePlain()
    ensures Sanitized("audit.compact") == "audit.compact" && PlainId("audit.compact")
    ensures Sanitized("audit.fold") == "audit.fold" && PlainId("audit.fold")
  {
  }

  /** One for a stamped record of this operation and result, else nothing: what one written line adds. */
  function Gain(r: Record, clock: string, id: string, ok: bool): nat {
    if clock != [] && Sanitized(r.operationId) == id && r.ok == ok then 1 else 0
  }

  /** A fine record becomes one fine line that counts once, or an unparsable one when unstamped. */
  lemma {:induction false} WrittenLineCounts(r: Record, clock: string, id: string, ok: bool)
    requires RecordIsFine(r) && ClockIsFine(clock)
    ensures var line := FormatLine(r, clock);
            && OneLine(line) && LineIsFine(line)
            && Live([line], id, ok) == Gain(r, clock, id, ok)
            && Unparsable([line]) == if clock == [] then [line] else []
  {
    WrittenLineIsOneLine(r, clock);
    if clock == [] {
      UnstampedLineIsUnparsable(r);
    } else {
      assert Sanitized(r.operationId) != [] ==> r.operationId != [];
      WrittenLineParses(r, clock);
      PlainTimestampIsClean(clock);
      assert clock[0] in clock;
    }
  }

  /** Lines and counts after one more line, whatever it is. */
  lemma {:induction false} LongerTrail(t: Trail, line: string, id: string, ok: bool)
    requires Terminated(t.audit) && OneLine(line)
    ensures var u := t.(audit := t.audit + (line + "\n"));
            && Terminated(u.audit) && Lines(u.audit) == Lines(t.audit) + [line]
            && Recorded(u, id, ok) == Recorded(t, id, ok) + Live([line], id, ok)
            && Unparsable(Lines(u.audit)) == Unparsable(Lines(t.audit)) + Unparsable([line])
  {
    LinesAppend(t.audit, line);
    LiveConcat(Lines(t.audit), [line], id, ok);
    UnparsableConcat(Lines(t.audit), [line]);
  }

  lemma {:induction false} FineLonger(lines: seq<string>, line: string)
    requires LinesAreFine(lines) && LineIsFine(line)
    ensures LinesAreFine(lines + [line])
  {
  }

  /** Appending conserves: the new line counts once and nothing else changes. */
  lemma {:induction false} AppendConserves(t: Trail, r: Record, clock: string, id: string, ok: bool)
    requires WellFormed(t) && RecordIsFine(r) && ClockIsFine(clock)
    ensures var u := AppendStep(t, r, clock, true);
            && WellFormed(u)
            && Recorded(u, id, ok) == Recorded(t, id, ok) + Gain(r, clock, id, ok)
            && Unparsable(Lines(u.audit)) == Unparsable(Lines(t.audit)) + if clock == [] then [FormatLine(r, clock)] else []
  {
    WrittenLineCounts(r, clock, id, ok);
    LongerTrail(t, FormatLine(r, clock), id, ok);
    FineLonger(Lines(t.audit), FormatLine(r, clock));
  }

  /** What stays in the audit file after a compaction: the live tail and every unparsable line. */
  lemma {:induction false} RetainedKeeps(t: Trail, o: Options, id: string, ok: bool)
    ensures Live(Lines(t.audit), id, ok) == Live(Head(t, o), id, ok) + Live(Retained(t, o), id, ok)
    ensures Unparsable(Retained(t, o)) == Unparsable(Lines(t.audit))
    ensures forall l | l in Retained(t, o) :: l in Lines(t.audit)
  {
    var lines, head := Lines(t.audit), Head(t, o);
    var tail := lines[|head|..];
    assert lines == head + tail;
    UnparsableLines(head);
    UnparsableIsDead(Unparsable(head), id, ok);
    LiveConcat(head, tail, id, ok);
    LiveConcat(Unparsable(head), tail, id, ok);
    UnparsableConcat(head, tail);
    UnparsableConcat(Unparsable(head), tail);
  }

  lemma {:induction false} CompactedAuditLines(t: Trail, o: Options, file: string, clock: string)
    requires ClockIsFine(clock)
    ensures var a, line := CompactedAudit(t, o, file, clock), FormatLine(CompactRecord(t, o, file), clock);
            Terminated(a) && Lines(a) == Retained(t, o) + [line] && LineIsFine(line)
  {
    SelfIdsArePlain();
    var line := FormatLine(CompactRecord(t, o, file), clock);
    WrittenLineCounts(CompactRecord(t, o, file), clock, "", true);
    RetainedKeeps(t, o, "", true);
    LinesAreLines(t.audit);
    LinesUnlines(Retained(t, o) + [line]);
  }

  /** The rewritten audit file holds the retained lines and the record of the compaction. */
  lemma {:induction false} CompactedAuditHolds(t: Trail, o: Options, file: string, clock: string, id: string, ok: bool)
    requires ClockIsFine(clock)
    ensures var r := CompactRecord(t, o, file);
            var a := CompactedAudit(t, o, file, clock);
            && Live(Lines(a), id, ok) == Live(Retained(t, o), id, ok) + Gain(r, clock, id, ok)
            && Unparsable(Lines(a)) == Unparsable(Lines(t.audit)) + if clock == [] then [FormatLine(r, clock)] else []
  {
    SelfIdsArePlain();
    var line := FormatLine(CompactRecord(t, o, file), clock);
    CompactedAuditLines(t, o, file, clock);
    WrittenLineCounts(CompactRecord(t, o, file), clock, id, ok);
    RetainedKeeps(t, o, id, ok);
    LiveConcat(Retained(t, o), [line], id, ok);
    UnparsableConcat(Retained(t, o), [line]);
  }

  /** What is counted twice when a compaction stops between its two files. */
  function Doubled(t: Trail, o: Options, fault: CompactFault, id: string, ok: bool): nat {
    if fault.AfterSummary? then Live(Head(t, o), id, ok) else 0
  }

  /** What is lost when the rollback truncates to a size it never learned. */
  function Erased(t: Trail, fault: CompactFault, id: string, ok: bool): nat {
    if fault == ReplaceFailed(false) then Summarized(Lines(t.summary), id, ok) else 0
  }

  function CompactGain(t: Trail, o: Options, file: string, clock: string, fault: CompactFault, id: string, ok: bool): nat {
    if fault.NoFault? then Gain(CompactRecord(t, o, file), clock, id, ok) else 0
  }

  /** A completed compaction conserves, but for a head whose summary cannot be read. */
  lemma {:induction false} CompletedBalance(t: Trail, o: Options, file: string, clock: string, id: string, ok: bool)
    requires Terminated(t.summary) && StampsAreFine(Head(t, o)) && ClockIsFine(clock) && |t.audit| <= MAX_AUDIT_READ
    ensures var u := Trail(CompactedAudit(t, o, file, clock), ExtendedSummary(t, o));
            Recorded(u, id, ok) + (if IsReadable(Head(t, o)) then 0 else Live(Head(t, o), id, ok))
            == Recorded(t, id, ok) + Gain(CompactRecord(t, o, file), clock, id, ok)
  {
    RetainedKeeps(t, o, id, ok);
    CompactedAuditHolds(t, o, file, clock, id, ok);
    HeadSummaryCounts(t, o, id, ok);
  }

  lemma {:induction false} FineIsReadable(lines: seq<string>)
    requires LinesAreFine(lines)
    ensures IsReadable(lines) && StampsAreFine(lines)
  {
    forall l | l in lines && ParsePrefix(l).Some?
      ensures '=' !in ParsePrefix(l).value.operationId && HidesNoMarker(ParsePrefix(l).value.timestamp)
    {
      assert LineIsFine(l);
    }
    FineStart(lines);
  }

  lemma {:induction false} FineStart(lines: seq<string>)
    requires LinesAreFine(lines)
    ensures !OpensWithDots(FirstStamp(lines))
  {
    if lines != [] {
      assert LineIsFine(lines[0]);
      if ParsePrefix(lines[0]).None? { FineStart(lines[1..]); }
    }
  }

  lemma {:induction false} FineRetained(t: Trail, o: Options, line: string)
    requires LinesAreFine(Lines(t.audit)) && LineIsFine(line)
    ensures LinesAreFine(Retained(t, o) + [line]) && LinesAreFine(Head(t, o))
  {
    RetainedKeeps(t, o, "", true);
  }

  lemma {:induction false} CompletedIsWellFormed(t: Trail, o: Options, file: string, clock: string)
    requires WellFormed(t) && ClockIsFine(clock) && |t.audit| <= MAX_AUDIT_READ
    ensures WellFormed(Trail(CompactedAudit(t, o, file, clock), ExtendedSummary(t, o)))
  {
    CompactedAuditLines(t, o, file, clock);
    FineRetained(t, o, FormatLine(CompactRecord(t, o, file), clock));
    SummaryLineStandsForHead(t, o, "", true);
  }

  lemma {:induction false} CompletedConserves(t: Trail, o: Options, file: string, clock: string, id: string, ok: bool)
    requires WellFormed(t) && ClockIsFine(clock) && |t.audit| <= MAX_AUDIT_READ
    ensures var u := Trail(CompactedAudit(t, o, file, clock), ExtendedSummary(t, o));
            BalanceHolds(t, u, 0, 0, Gain(CompactRecord(t, o, file), clock, id, ok), id, ok)
  {
    CompletedIsWellFormed(t, o, file, clock);
    FineRetained(t, o, "");
    FineIsReadable(Head(t, o));
    CompletedBalance(t, o, file, clock, id, ok);
  }

  lemma {:induction false} OnlySummaryGrows(t: Trail, s: string, n: nat, id: string, ok: bool)
    requires WellFormed(t) && Terminated(s) && Summarized(Lines(s), id, ok) == Summarized(Lines(t.summary), id, ok) + n
    ensures WellFormed(Trail(t.audit, s)) && Recorded(Trail(t.audit, s), id, ok) == Recorded(t, id, ok) + n
  {
  }

  lemma {:induction false} StoppedBalance(t: Trail, o: Options, id: string, ok: bool)
    requires WellFormed(t) && |t.audit| <= MAX_AUDIT_READ
    ensures var u := Trail(t.audit, ExtendedSummary(t, o));
            BalanceHolds(t, u, 0, Live(Head(t, o), id, ok), 0, id, ok)
  {
    SummaryLineStandsForHead(t, o, id, ok);
    OnlySummaryGrows(t, ExtendedSummary(t, o), Live(Head(t, o), id, ok), id, ok);
  }

  /** Cutting the summary file back to its old size, or to nothing. */
  lemma {:induction false} CutBack(t: Trail, o: Options)
    ensures ExtendedSummary(t, o)[..|t.summary|] == t.summary && ExtendedSummary(t, o)[..0] == ""
  {
    PrefixIs(t.summary, FormatSummary(Summarize(Head(t, o))) + "\n");
  }

  lemma {:induction false} PrefixIs(a: string, b: string)
    ensures (a + b)[..|a|] == a && (a + b)[..0] == ""
  {
  }

  lemma {:induction false} RolledBackBalance(t: Trail, o: Options, sizeKnown: bool, id: string, ok: bool)
    requires WellFormed(t)
    ensures var u := Trail(t.audit, ExtendedSummary(t, o)[..if sizeKnown then |t.summary| else 0]);
            BalanceHolds(t, u, if sizeKnown then 0 else Summarized(Lines(t.summary), id, ok), 0, 0, id, ok)
  {
    CutBack(t, o);
    if !sizeKnown { assert Lines("") == []; }
  }

  /** The files after a compaction, and the balance of an operation with a result. */
  ghost predicate BalanceHolds(t: Trail, u: Trail, erased: nat, doubled: nat, gain: nat, id: string, ok: bool) {
    WellFormed(u) && Recorded(u, id, ok) + erased == Recorded(t, id, ok) + doubled + gain
  }

  lemma {:induction false} NothingChanged(t: Trail, id: string, ok: bool)
    requires WellFormed(t)
    ensures BalanceHolds(t, t, 0, 0, 0, id, ok)
  {
  }

  /** The exact balance of a compaction under every outcome. */
  lemma {:induction false} CompactBalance(t: Trail, o: Options, file: string, clock: string, fault: CompactFault, id: string, ok: bool)
    requires WellFormed(t) && ClockIsFine(clock) && |t.audit| <= MAX_AUDIT_READ
    ensures BalanceHolds(t, RewriteStep(t, o, file, clock, fault), Erased(t, fault, id, ok), Doubled(t, o, fault, id, ok),
                         CompactGain(t, o, file, clock, fault, id, ok), id, ok)
  {
    match fault
    case NoFault => CompletedConserves(t, o, file, clock, id, ok);
    case CannotRead => NothingChanged(t, id, ok);
    case BeforeSummary => NothingChanged(t, id, ok);
    case AfterSummary => StoppedBalance(t, o, id, ok);
    case ReplaceFailed(sizeKnown) => RolledBackBalance(t, o, sizeKnown, id, ok);
  }

  lemma {:induction false} LiveWitness(lines: seq<string>, line: string)
    requires line in lines && ParsePrefix(line).Some?
    ensures Live(lines, ParsePrefix(line).value.operationId, ParsePrefix(line).value.ok) > 0
  {
    if line != lines[0] {
      assert line in lines[1..];
      LiveWitness(lines[1..], line);
    }
  }

  lemma {:induction false} DeadHeadIsRetained(t: Trail, o: Options)
    requires forall l | l in Head(t, o) :: ParsePrefix(l).None?
    ensures Retained(t, o) == Lines(t.audit)
  {
    var head, lines := Head(t, o), Lines(t.audit);
    UnparsableIsDead(head, "", true);
    assert head + lines[|head|..] == lines;
  }

  /** A compaction that rewrites has at least one parsable line in its head. */
  lemma {:induction false} CompactsSomething(t: Trail, o: Options) returns (id: string, ok: bool)
    requires Compacts(t, o)
    ensures Live(Head(t, o), id, ok) > 0
  {
    var head := Head(t, o);
    if forall l | l in head :: ParsePrefix(l).None? {
      DeadHeadIsRetained(t, o);
      assert false;
    }
    var line :| line in head && ParsePrefix(line).Some?;
    LiveWitness(head, line);
    id, ok := ParsePrefix(line).value.operationId, ParsePrefix(line).value.ok;
  }

  /** The outcomes under which a rewriting compaction loses or doubles nothing. */
  ghost predicate Safe(t: Trail, fault: CompactFault) {
    match fault
    case NoFault => true
    case CannotRead => true
    case BeforeSummary => true
    case AfterSummary => false
    case ReplaceFailed(sizeKnown) => sizeKnown || forall id, ok :: Summarized(Lines(t.summary), id, ok) == 0
  }

  ghost predicate Conserves(t: Trail, o: Options, file: string, clock: string, fault: CompactFault) {
    forall id, ok ::
      Recorded(CompactStep(t, o, file, clock, fault), id, ok)
      == Recorded(t, id, ok) + CompactGain(t, o, file, clock, fault, id, ok)
  }

  lemma {:induction false} SafeConserves(t: Trail, o: Options, file: string, clock: string, fault: CompactFault)
    requires WellFormed(t) && ClockIsFine(clock) && Compacts(t, o) && Safe(t, fault)
    ensures Conserves(t, o, file, clock, fault)
  {
    forall id, ok
      ensures Recorded(CompactStep(t, o, file, clock, fault), id, ok)
           == Recorded(t, id, ok) + CompactGain(t, o, file, clock, fault, id, ok)
    {
      CompactBalance(t, o, file, clock, fault, id, ok);
    }
  }

  lemma {:induction false} UnsafeDoesNotConserve(t: Trail, o: Options, file: string, clock: string, fault: CompactFault)
    requires WellFormed(t) && ClockIsFine(clock) && Compacts(t, o) && !Safe(t, fault)
    ensures !Conserves(t, o, file, clock, fault)
  {
    var id, ok;
    if fault.AfterSummary? {
      id, ok := CompactsSomething(t, o);
    } else {
      id, ok :| Summarized(Lines(t.summary), id, ok) != 0;
    }
    CompactBalance(t, o, file, clock, fault, id, ok);
  }

  /** Compaction conserves every count exactly under the safe outcomes: a crash between the two files
      doubles, and a rollback whose size query had failed erases what the summary file held. */
  lemma {:induction false} CompactConservesIffSafe(t: Trail, o: Options, file: string, clock: string, fault: CompactFault)
    requires WellFormed(t) && ClockIsFine(clock) && Compacts(t, o)
    ensures Conserves(t, o, file, clock, fault) <==> Safe(t, fault)
  {
    if Safe(t, fault) {
      SafeConserves(t, o, file, clock, fault);
    } else {
      UnsafeDoesNotConserve(t, o, file, clock, fault);
    }
  }

  /**
    Ids with '=' and ranges that open with dots are beyond the summary format: a completed compaction conserves
    every count if and only if no id of the compacted head holds '=' and its first time stamp is neither a
    dot nor begins with two; otherwise all counts of that head are lost.
   */
  lemma {:induction false} CompactConservesIffReadable(t: Trail, o: Options, file: string, clock: string)
    requires Terminated(t.summary) && StampsAreFine(Head(t, o)) && ClockIsFine(clock) && Compacts(t, o)
    ensures Conserves(t, o, file, clock, NoFault) <==> HasPlainIds(Head(t, o)) && !OpensWithDots(FirstStamp(Head(t, o)))
  {
    if IsReadable(Head(t, o)) {
      forall id, ok
        ensures Recorded(CompactStep(t, o, file, clock, NoFault), id, ok)
             == Recorded(t, id, ok) + CompactGain(t, o, file, clock, NoFault, id, ok)
      {
        CompletedBalance(t, o, file, clock, id, ok);
      }
    } else {
      var id, ok := CompactsSomething(t, o);
      CompletedBalance(t, o, file, clock, id, ok);
    }
  }

  /** The folded summary file alone: same counts, same lines that are no summaries. */
  lemma {:induction false} FoldedSummaryHolds(t: Trail, id: string, ok: bool)
    requires Terminated(t.summary) && NoOverflow(Lines(t.summary))
    ensures var s := Unlines(FoldLines(Lines(t.summary)));
            && Terminated(s) && Kept(Lines(s)) == Kept(Lines(t.summary))
            && Summarized(Lines(s), id, ok) == Summarized(Lines(t.summary), id, ok)
  {
    var lines := Lines(t.summary);
    LinesAreLines(t.summary);
    MergedIsPrintable(lines);
    FormatIsOneLine(Merged(lines));
    KeptIsUnparsable(lines);
    LinesUnlines(FoldLines(lines));
    FoldKeepsCounts(lines, id, ok);
    FoldKeepsMerged(lines);
  }

  /** The summary file after a fold keeps every sum it stood for if and only if none of them reaches the parser's limit. */
  lemma {:induction false} FoldConservesIffNoOverflow(t: Trail, o: Options, name: Option<string>, clock: string, fault: FoldFault)
    requires Terminated(t.summary) && Folds(t, o) && Replaces(fault)
    ensures KeepsSums(Lines(t.summary), Lines(FoldStep(t, o, name, clock, fault).summary)) <==> NoOverflow(Lines(t.summary))
  {
    var lines := Lines(t.summary);
    LinesAreLines(t.summary);
    MergedIsPrintable(lines);
    FormatIsOneLine(Merged(lines));
    KeptIsUnparsable(lines);
    LinesUnlines(FoldLines(lines));
    FoldKeepsSumsIff(lines);
  }

  /** Folding conserves: the record of the fold counts once and nothing else changes. */
  lemma {:induction false} FoldAppendConserves(t: Trail, r: Record, clock: string, done: bool, id: string, ok: bool)
    requires WellFormed(t) && ClockIsFine(clock) && RecordIsFine(r)
    ensures var u := AppendStep(t, r, clock, done);
            && WellFormed(u) && u.summary == t.summary
            && Recorded(u, id, ok) == Recorded(t, id, ok) + (if done then Gain(r, clock, id, ok) else 0)
            && Unparsable(Lines(u.audit)) == Unparsable(Lines(t.audit)) + if done && clock == [] then [FormatLine(r, clock)] else []
  {
    if done { AppendConserves(t, r, clock, id, ok); }
  }

  lemma {:induction false} FoldConserves(t: Trail, o: Options, name: Option<string>, clock: string, fault: FoldFault, id: string, ok: bool)
    requires WellFormed(t) && ClockIsFine(clock) && Folds(t, o) && NoOverflow(Lines(t.summary))
    ensures var u := FoldStep(t, o, name, clock, fault);
            && WellFormed(u) && Kept(Lines(u.summary)) == Kept(Lines(t.summary))
            && Recorded(u, id, ok) == Recorded(t, id, ok) + (if RecordIsOut(name, fault) then Gain(FoldRecord(t, o, name), clock, id, ok) else 0)
            && Unparsable(Lines(u.audit)) == Unparsable(Lines(t.audit))
                 + if RecordIsOut(name, fault) && clock == [] then [FormatLine(FoldRecord(t, o, name), clock)] else []
  {
    if Replaces(fault) {
      FoldedSummaryHolds(t, id, ok);
      SelfIdsArePlain();
      FoldAppendConserves(t.(summary := Unlines(FoldLines(Lines(t.summary)))), FoldRecord(t, o, name), clock, RecordIsOut(name, fault), id, ok);
    }
  }

  // ---------- what a compaction and a fold leave, line by line ----------

  /** A line of the compacted part stays, in its place, exactly when it cannot be read. */
  lemma {:induction false} UnparsableIffUnreadable(a: seq<string>, line: string, b: seq<string>)
    ensures Unparsable(a + [line] + b) == Unparsable(a) + (if ParsePrefix(line).None? then [line] else []) + Unparsable(b)
  {
    UnparsableConcat(a + [line], b);
    UnparsableConcat(a, [line]);
    UnparsableOne(line);
  }

  lemma {:induction false} UnparsableOne(line: string)
    ensures Unparsable([line]) == if ParsePrefix(line).None? then [line] else []
  {
    assert [line][1..] == [];
  }

  lemma {:induction false} HeadIsTheRest(t: Trail, o: Options)
    ensures var lines := Lines(t.audit);
            var k := if o.keepTailLines < |lines| then o.keepTailLines else |lines|;
            Head(t, o) == lines[..|lines| - k] && Retained(t, o) == Unparsable(lines[..|lines| - k]) + lines[|lines| - k..]
  {
  }

  lemma {:induction false} UnparsableLength(lines: seq<string>)
    ensures |Unparsable(lines)| == |lines| <==> forall l | l in lines :: ParsePrefix(l).None?
  {
    if lines != [] {
      UnparsableLength(lines[1..]);
      assert forall l :: l in lines <==> l == lines[0] || l in lines[1..];
    }
  }

  lemma {:induction false} RetainsAllIff(t: Trail, o: Options)
    ensures Retained(t, o) == Lines(t.audit) <==> forall l | l in Head(t, o) :: ParsePrefix(l).None?
  {
    UnparsableLength(Head(t, o));
    RetainedLength(t, o);
    if forall l | l in Head(t, o) :: ParsePrefix(l).None? { DeadHeadIsRetained(t, o); }
  }

  lemma {:induction false} RetainedLength(t: Trail, o: Options)
    ensures |Retained(t, o)| + |Head(t, o)| == |Lines(t.audit)| + |Unparsable(Head(t, o))|
  {
  }

  /** A compaction rewrites exactly when the file can be read, a threshold that is not 0 is reached, and some
      line before the kept tail can be aggregated. */
  lemma {:induction false} CompactsIff(t: Trail, o: Options)
    ensures var lines := Lines(t.audit);
            Compacts(t, o) <==>
              && |t.audit| <= 8388608
              && ((o.maxBytes > 0 && |t.audit| >= o.maxBytes) || (o.maxLines > 0 && |lines| >= o.maxLines))
              && exists i | 0 <= i < |lines| - o.keepTailLines :: ParsePrefix(lines[i]).Some?
  {
    var lines, head := Lines(t.audit), Head(t, o);
    RetainsAllIff(t, o);
    assert forall i | 0 <= i < |head| :: head[i] == lines[i] && lines[i] in head;
    assert |head| == if o.keepTailLines < |lines| then |lines| - o.keepTailLines else 0;
  }

  /** The numbers in the record that a compaction writes about itself: lines before and after, lines aggregated and kept. */
  lemma {:induction false} CompactionNumbersAre(t: Trail, o: Options)
    requires |t.audit| <= 8388608
    ensures var lines := Lines(t.audit);
            var k := if o.keepTailLines < |lines| then o.keepTailLines else |lines|;
            var unread := |Unparsable(lines[..|lines| - k])|;
            var (before, after, summarized, unparsed) := CompactNumbers(t, o);
            before == |lines| && after == unread + k + 1 && summarized + unread == |lines| - k && unparsed == unread
  {
    HeadIs(t, o);
    NumbersCountHead(t, o);
  }

  lemma {:induction false} HeadIs(t: Trail, o: Options)
    ensures var lines := Lines(t.audit);
            var k := if o.keepTailLines < |lines| then o.keepTailLines else |lines|;
            Head(t, o) == lines[..|lines| - k] && |Head(t, o)| == |lines| - k
  {
  }

  lemma {:induction false} NumbersCountHead(t: Trail, o: Options)
    requires |t.audit| <= 8388608
    ensures var n, head, unread := |Lines(t.audit)|, |Head(t, o)|, |Unparsable(Head(t, o))|;
            var (before, after, summarized, unparsed) := CompactNumbers(t, o);
            before == n && after + head == unread + n + 1 && summarized + unread == head && unparsed == unread
  {
    RetainedLength(t, o);
    HeadIsCounted(t, o);
  }

  lemma {:induction false} HeadIsCounted(t: Trail, o: Options)
    requires |t.audit| <= 8388608
    ensures var s, unread := Summarize(Head(t, o)), |Unparsable(Head(t, o))|;
            |Head(t, o)| <= |Lines(t.audit)| && s.unparsed == unread && s.total == |Head(t, o)| - unread
  {
    assert |Lines(t.audit)| <= |t.audit|;
    UnparsableIsCounted(Head(t, o));
  }

  /** And the record itself. */
  lemma {:induction false} CompactionRecordIs(t: Trail, o: Options, file: string, n: (nat, nat, nat, nat))
    requires n == CompactNumbers(t, o)
    ensures CompactRecord(t, o, file) == Record("audit.compact", R0, "audit", file,
              "before=" + Decimal(n.0) + " after=" + Decimal(n.1) + " summarized=" + Decimal(n.2) + " unparsed=" + Decimal(n.3)
              + " threshold_bytes=" + Decimal(o.maxBytes) + " threshold_lines=" + Decimal(o.maxLines), true)
  {
  }

  /**
    A completed compaction, line by line: with n lines the last min(keepTailLines, n) stay as they are, behind
    the unreadable ones of the part before them; the record of the compaction follows, and the
    summary file gets one line for the part before the tail.
   */
  lemma {:induction false} CompactionKeepsTheTail(t: Trail, o: Options, file: string, clock: string)
    requires Compacts(t, o) && OneLine(clock) && Terminated(t.summary)
    ensures var lines, u := Lines(t.audit), CompactStep(t, o, file, clock, NoFault);
            var k := if o.keepTailLines < |lines| then o.keepTailLines else |lines|;
            var head, tail := lines[..|lines| - k], lines[|lines| - k..];
            && Lines(u.audit) == Unparsable(head) + tail + [FormatLine(CompactRecord(t, o, file), clock)]
            && Lines(u.summary) == Lines(t.summary) + [FormatSummary(Summarize(head))]
  {
    HeadIsTheRest(t, o);
    CompactedLines(t, o, file, clock);
    ExtendedLines(t, o);
  }

  lemma {:induction false} CompactedLines(t: Trail, o: Options, file: string, clock: string)
    requires OneLine(clock)
    ensures Lines(CompactedAudit(t, o, file, clock)) == Retained(t, o) + [FormatLine(CompactRecord(t, o, file), clock)]
  {
    WrittenLineIsOneLine(CompactRecord(t, o, file), clock);
    RetainedKeeps(t, o, "", true);
    LinesAreLines(t.audit);
    LinesUnlines(Retained(t, o) + [FormatLine(CompactRecord(t, o, file), clock)]);
  }

  lemma {:induction false} StampsAreOneLine(lines: seq<string>)
    requires AllOneLine(lines)
    ensures OneLine(Summarize(lines).firstTimestamp) && OneLine(Summarize(lines).lastTimestamp) && IdsAreWords(Summarize(lines).byOperation)
  {
    if lines != [] {
      var init, last := lines[..|lines| - 1], lines[|lines| - 1];
      StampsAreOneLine(init);
      assert last in lines;
      if ParsePrefix(last).Some? {
        var p := ParsePrefix(last).value;
        ParsedIdIsAWord(last);
        ParsedStampIsOneLine(last);
        BumpKeepsWordIds(Summarize(init).byOperation, p.operationId, if p.ok then 1 else 0, if p.ok then 0 else 1);
      }
    }
  }

  lemma {:induction false} ExtendedLines(t: Trail, o: Options)
    requires Terminated(t.summary)
    ensures Lines(ExtendedSummary(t, o)) == Lines(t.summary) + [FormatSummary(Summarize(Head(t, o)))]
  {
    LinesAreLines(t.audit);
    StampsAreOneLine(Head(t, o));
    FormatIsOneLine(Summarize(Head(t, o)));
    LinesAppend(t.summary, FormatSummary(Summarize(Head(t, o))));
  }

  /**
    The report of a compaction that does not fail, in numbers of lines: nothing below the thresholds; only
    the unreadable lines of the part before the tail when there is nothing to aggregate in it; else the
    lines before and after, and how many lines of that part were aggregated and kept.
   */
  lemma {:induction false} CompactionReports(t: Trail, o: Options)
    requires |t.audit| <= 8388608
    ensures var lines := Lines(t.audit);
            var n, k := |lines|, if o.keepTailLines < |lines| then o.keepTailLines else |lines|;
            var unread := |Unparsable(lines[..n - k])|;
            CompactReport(t, o) ==
              if !((o.maxBytes > 0 && |t.audit| >= o.maxBytes) || (o.maxLines > 0 && n >= o.maxLines)) then CompactOk(false, n, n, 0, 0)
              else if unread == n - k then CompactOk(false, n, n, 0, n - k)
              else CompactOk(true, n, unread + k + 1, n - k - unread, unread)
  {
    HeadIsTheRest(t, o);
    ReportCountsHead(t, o);
  }

  lemma {:induction false} ReportCountsHead(t: Trail, o: Options)
    requires |t.audit| <= 8388608
    ensures var n, head, unread := |Lines(t.audit)|, |Head(t, o)|, |Unparsable(Head(t, o))|;
            CompactReport(t, o) ==
              if !ShouldCompact(|t.audit|, n, o) then CompactOk(false, n, n, 0, 0)
              else if unread == head then CompactOk(false, n, n, 0, head)
              else CompactOk(true, n, unread + n - head + 1, head - unread, unread)
  {
    RetainsAllIff(t, o);
    RetainedLength(t, o);
    HeadIsCounted(t, o);
    UnparsableLength(Head(t, o));
  }

  lemma {:induction false} UnparsableIsCounted(lines: seq<string>)
    requires |lines| < WORD
    ensures Summarize(lines).unparsed == |Unparsable(lines)| && Summarize(lines).total == |lines| - |Unparsable(lines)|
  {
    if lines != [] {
      var init, last := lines[..|lines| - 1], lines[|lines| - 1];
      assert lines == init + [last];
      UnparsableIsCounted(init);
      UnparsableLength(init);
      UnparsableConcat(init, [last]);
      UnparsableOne(last);
    }
  }

  /** The default options on 20000 readable lines: 18000 are aggregated, the last 2000 stay, and the record follows. */
  lemma {:induction false} DefaultsKeepTwoThousand(t: Trail)
    requires |t.audit| <= 8388608 && |Lines(t.audit)| == 20000 && Unparsable(Lines(t.audit)) == []
    ensures CompactReport(t, DEFAULTS) == CompactOk(true, 20000, 2001, 18000, 0)
  {
    CompactionReports(t, DEFAULTS);
    var lines := Lines(t.audit);
    UnparsableConcat(lines[..18000], lines[18000..]);
    assert lines[..18000] + lines[18000..] == lines;
  }

  /** When a compaction fails. */
  lemma {:induction false} CompactFailsIff(t: Trail, o: Options, fault: CompactFault)
    ensures CompactFails(t, o, fault) <==> fault == CannotRead || |t.audit| > 8388608 || (Compacts(t, o) && fault != NoFault)
  {
  }

  /** What each way to fail leaves: the audit file as it was, and the summary file as it was, longer by the new line, or empty. */
  lemma {:induction false} FailedCompactionLeaves(t: Trail, o: Options, file: string, clock: string, fault: CompactFault)
    requires !Compacts(t, o) || fault != NoFault
    ensures CompactStep(t, o, file, clock, fault) ==
      if Compacts(t, o) && fault == AfterSummary
      then t.(summary := t.summary + (FormatSummary(Summarize(Head(t, o))) + "\n"))
      else if Compacts(t, o) && fault == ReplaceFailed(false) then t.(summary := "")
      else t
  {
    CutBack(t, o);
  }

  /** A fold rewrites exactly when the limit is not 0 and reached, the file is at most 64 MiB and two lines can be read. */
  lemma {:induction false} FoldsIff(t: Trail, o: Options)
    ensures Folds(t, o) <==> o.summaryMaxBytes > 0 && o.summaryMaxBytes <= |t.summary| <= 67108864
                             && |Lines(t.summary)| >= |Kept(Lines(t.summary))| + 2
  {
  }

  lemma {:induction false} FoldedLinesAre(lines: seq<string>)
    requires AllOneLine(lines) && Ranges(lines) > 1
    ensures Lines(Unlines(FoldLines(lines))) == [FormatSummary(Merged(lines))] + Kept(lines)
  {
    MergedIsPrintable(lines);
    FormatIsOneLine(Merged(lines));
    KeptIsUnparsable(lines);
    LinesUnlines(FoldLines(lines));
  }

  /** A fold that rewrites leaves one line for all summaries, followed by every line that is none; it reports these numbers. */
  lemma {:induction false} FoldLeavesOneSummary(t: Trail, o: Options, name: Option<string>, clock: string, fault: FoldFault)
    requires Folds(t, o) && (fault.FoldDone? || fault.FoldRecordFailed?)
    ensures var lines, u := Lines(t.summary), FoldStep(t, o, name, clock, fault);
            && Lines(u.summary) == [FormatSummary(Merged(lines))] + Kept(lines)
            && FoldReport(t, o) == FoldOk(true, |lines|, |Lines(u.summary)|, |lines| - |Kept(lines)|, |Kept(lines)|)
            && u.audit == t.audit + if name.Some? && (fault.FoldDone? || fault.lineIsOut) then FormatLine(FoldRecord(t, o, name), clock) + "\n" else ""
  {
    assert t.audit + "" == t.audit;
    LinesAreLines(t.summary);
    FoldedLinesAre(Lines(t.summary));
    FoldedLength(Lines(t.summary));
  }

  /** The record that a fold writes about itself. */
  lemma {:induction false} FoldRecordIs(t: Trail, o: Options, name: string)
    requires Folds(t, o)
    ensures var n, kept := |Lines(t.summary)|, |Kept(Lines(t.summary))|;
            FoldRecord(t, o, Some(name)) == Record("audit.fold", R0, "audit", name,
              "merged_ranges=" + Decimal(n - kept) + " before=" + Decimal(n) + " after=" + Decimal(1 + kept)
              + " unparsable_kept=" + Decimal(kept) + " summary_max_bytes=" + Decimal(o.summaryMaxBytes), true)
  {
  }

  /** When a fold fails, and what its report is when there is nothing to fold. */
  lemma {:induction false} FoldFailsIff(t: Trail, o: Options, name: Option<string>, fault: FoldFault)
    ensures !(Folds(t, o) && (fault.FoldDone? || fault.FoldRecordFailed?)) ==> forall clock :: FoldStep(t, o, name, clock, fault) == t
    ensures var reached, n := o.summaryMaxBytes > 0 && |t.summary| >= o.summaryMaxBytes, |Lines(t.summary)|;
            && (FoldFails(t, o, name, fault) <==>
                  || fault == FoldCannotQuery
                  || (reached && (|t.summary| > 67108864 || fault == FoldCannotRead))
                  || (Folds(t, o) && (fault == FoldReplaceFailed || (fault.FoldRecordFailed? && name.Some?))))
            && (!reached ==> FoldReport(t, o) == FoldOk(false, 0, 0, 0, 0))
            && (reached && Ranges(Lines(t.summary)) <= 1 ==> FoldReport(t, o) == FoldOk(false, n, n, Ranges(Lines(t.summary)), n - Ranges(Lines(t.summary))))
  {
    FoldedLength(Lines(t.summary));
  }

  // ---------- whole runs ----------

  datatype Event =
    | Append(record: Record, clock: string, written: bool)
    | Compact(options: Options, file: string, clock: string, fault: CompactFault)
    | Fold(options: Options, name: Option<string>, clock: string, foldFault: FoldFault)

  function Step(t: Trail, e: Event): Trail {
    match e
    case Append(r, clock, written) => AppendStep(t, r, clock, written)
    case Compact(o, file, clock, fault) => CompactStep(t, o, file, clock, fault)
    case Fold(o, name, clock, fault) => FoldStep(t, o, name, clock, fault)
  }

  function Run(t: Trail, es: seq<Event>): Trail
    decreases |es|
  {
    if es == [] then t else Run(Step(t, es[0]), es[1..])
  }

  /** The records an event writes, with their time stamps: its own, or those of the maintenance itself. */
  function WrittenBy(t: Trail, e: Event): seq<(Record, string)> {
    match e
    case Append(r, clock, written) => if written then [(r, clock)] else []
    case Compact(o, file, clock, fault) => if Compacts(t, o) && fault.NoFault? then [(CompactRecord(t, o, file), clock)] else []
    case Fold(o, name, clock, fault) => if Folds(t, o) && RecordIsOut(name, fault) then [(FoldRecord(t, o, name), clock)] else []
  }

  function Written(t: Trail, es: seq<Event>): seq<(Record, string)>
    decreases |es|
  {
    if es == [] then [] else WrittenBy(t, es[0]) + Written(Step(t, es[0]), es[1..])
  }

  /** Number of stamped records of an operation with a result. */
  function Count(ws: seq<(Record, string)>, id: string, ok: bool): nat {
    if ws == [] then 0 else Gain(ws[0].0, ws[0].1, id, ok) + Count(ws[1..], id, ok)
  }

  /** The lines of the unstamped records, in the order they were written. */
  function UnstampedLines(ws: seq<(Record, string)>): seq<string> {
    if ws == [] then [] else UnstampedLine(ws[0]) + UnstampedLines(ws[1..])
  }

  /** The events of a run: fine ids and clocks, replacements that fail are rolled back, no counter overflows. */
  ghost predicate Sound(t: Trail, e: Event) {
    && ClockIsFine(e.clock)
    && match e
       case Append(r, _, _) => RecordIsFine(r)
       case Compact(_, _, _, fault) => !fault.AfterSummary? && fault != ReplaceFailed(false)
       case Fold(_, _, _, _) => NoOverflow(Lines(t.summary))
  }

  ghost predicate SoundRun(t: Trail, es: seq<Event>)
    decreases |es|
  {
    es != [] ==> Sound(t, es[0]) && SoundRun(Step(t, es[0]), es[1..])
  }

  lemma {:induction false} CountOne(r: Record, clock: string, id: string, ok: bool)
    ensures Count([(r, clock)], id, ok) == Gain(r, clock, id, ok)
    ensures UnstampedLines([(r, clock)]) == if clock == [] then [FormatLine(r, clock)] else []
  {
    assert [(r, clock)][1..] == [];
  }

  /**
    From one state of the trail to another, with the records written in between: counts grow by
    exactly the stamped records, the unparsable audit lines by exactly the unstamped ones, and
    the lines of the summary file that are no summaries stay.
   */
  ghost predicate Balanced(t: Trail, ws: seq<(Record, string)>, u: Trail) {
    && CountsGrow(t, ws, u)
    && Unparsable(Lines(u.audit)) == Unparsable(Lines(t.audit)) + UnstampedLines(ws)
    && Kept(Lines(u.summary)) == Kept(Lines(t.summary))
  }

  ghost predicate CountsGrow(t: Trail, ws: seq<(Record, string)>, u: Trail) {
    forall id, ok :: Recorded(u, id, ok) == Recorded(t, id, ok) + Count(ws, id, ok)
  }

  lemma {:induction false} CountsGrowComposes(t: Trail, v: seq<(Record, string)>, u: Trail, w: seq<(Record, string)>, z: Trail)
    requires CountsGrow(t, v, u) && CountsGrow(u, w, z)
    ensures CountsGrow(t, v + w, z)
  {
    forall id, ok ensures Recorded(z, id, ok) == Recorded(t, id, ok) + Count(v + w, id, ok) {
      CountConcat(v, w, id, ok);
      assert Recorded(u, id, ok) == Recorded(t, id, ok) + Count(v, id, ok);
    }
  }

  lemma {:induction false} BalancedComposes(t: Trail, v: seq<(Record, string)>, u: Trail, w: seq<(Record, string)>, z: Trail)
    requires Balanced(t, v, u) && Balanced(u, w, z)
    ensures Balanced(t, v + w, z)
  {
    CountsGrowComposes(t, v, u, w, z);
    UnstampedConcat(v, w);
    Associate(Unparsable(Lines(t.audit)), UnstampedLines(v), UnstampedLines(w));
  }

  lemma {:induction false} BalancedByNothing(t: Trail)
    ensures Balanced(t, [], t)
  {
  }

  lemma {:induction false} BalancedByOne(t: Trail, r: Record, clock: string, u: Trail)
    requires forall id, ok :: Recorded(u, id, ok) == Recorded(t, id, ok) + Gain(r, clock, id, ok)
    requires Unparsable(Lines(u.audit)) == Unparsable(Lines(t.audit)) + if clock == [] then [FormatLine(r, clock)] else []
    requires Kept(Lines(u.summary)) == Kept(Lines(t.summary))
    ensures Balanced(t, [(r, clock)], u)
  {
    forall id, ok ensures Recorded(u, id, ok) == Recorded(t, id, ok) + Count([(r, clock)], id, ok) {
      CountOne(r, clock, id, ok);
    }
    CountOne(r, clock, "", true);
  }

  lemma {:induction false} CompletedKeepsTheOthers(t: Trail, o: Options, file: string, clock: string)
    requires WellFormed(t) && ClockIsFine(clock) && |t.audit| <= MAX_AUDIT_READ
    ensures var u, r := Trail(CompactedAudit(t, o, file, clock), ExtendedSummary(t, o)), CompactRecord(t, o, file);
            && Unparsable(Lines(u.audit)) == Unparsable(Lines(t.audit)) + (if clock == [] then [FormatLine(r, clock)] else [])
            && Kept(Lines(u.summary)) == Kept(Lines(t.summary))
  {
    CompactedAuditHolds(t, o, file, clock, "", true);
    SummaryLineStandsForHead(t, o, "", true);
    KeptOfLonger(Lines(t.summary), FormatSummary(Summarize(Head(t, o))));
  }

  lemma {:induction false} CompletedCounts(t: Trail, o: Options, file: string, clock: string)
    requires WellFormed(t) && ClockIsFine(clock) && |t.audit| <= MAX_AUDIT_READ
    ensures var u, r := Trail(CompactedAudit(t, o, file, clock), ExtendedSummary(t, o)), CompactRecord(t, o, file);
            forall id, ok :: Recorded(u, id, ok) == Recorded(t, id, ok) + Gain(r, clock, id, ok)
  {
    var u := Trail(CompactedAudit(t, o, file, clock), ExtendedSummary(t, o));
    forall id, ok ensures Recorded(u, id, ok) == Recorded(t, id, ok) + Gain(CompactRecord(t, o, file), clock, id, ok) {
      CompletedConserves(t, o, file, clock, id, ok);
    }
  }

  lemma {:induction false} CompactConserves(t: Trail, o: Options, file: string, clock: string)
    requires WellFormed(t) && ClockIsFine(clock) && Compacts(t, o)
    ensures WellFormed(CompactStep(t, o, file, clock, NoFault))
    ensures Balanced(t, [(CompactRecord(t, o, file), clock)], CompactStep(t, o, file, clock, NoFault))
  {
    CompletedIsWellFormed(t, o, file, clock);
    CompletedCounts(t, o, file, clock);
    CompletedKeepsTheOthers(t, o, file, clock);
    BalancedByOne(t, CompactRecord(t, o, file), clock, CompactStep(t, o, file, clock, NoFault));
  }

  lemma {:induction false} KeptOfLonger(lines: seq<string>, line: string)
    requires IsRange(line)
    ensures Kept(lines + [line]) == Kept(lines)
  {
    assert (lines + [line])[..|lines|] == lines;
  }

  /** One event keeps the balance. */
  lemma {:induction false} StepConserves(t: Trail, e: Event)
    requires WellFormed(t) && Sound(t, e)
    ensures WellFormed(Step(t, e)) && Balanced(t, WrittenBy(t, e), Step(t, e))
  {
    BalancedByNothing(t);
    match e
    case Append(r, clock, written) =>
      if written {
        forall id, ok { AppendConserves(t, r, clock, id, ok); }
        AppendConserves(t, r, clock, "", true);
        BalancedByOne(t, r, clock, Step(t, e));
      }
    case Compact(o, file, clock, fault) =>
      if Compacts(t, o) && fault.NoFault? {
        CompactConserves(t, o, file, clock);
      } else if Compacts(t, o) {
        CutBack(t, o);
      }
    case Fold(o, name, clock, fault) =>
      if Folds(t, o) { FoldBalance(t, o, name, clock, fault); }
  }

  lemma {:induction false} BalancedUnchanged(t: Trail, u: Trail)
    requires forall id, ok :: Recorded(u, id, ok) == Recorded(t, id, ok)
    requires Unparsable(Lines(u.audit)) == Unparsable(Lines(t.audit)) && Kept(Lines(u.summary)) == Kept(Lines(t.summary))
    ensures Balanced(t, [], u)
  {
  }

  /** A fold whose record is out. */
  lemma {:induction false} RecordedFoldBalance(t: Trail, o: Options, name: Option<string>, clock: string, fault: FoldFault)
    requires WellFormed(t) && ClockIsFine(clock) && Folds(t, o) && NoOverflow(Lines(t.summary)) && RecordIsOut(name, fault)
    ensures Balanced(t, [(FoldRecord(t, o, name), clock)], FoldStep(t, o, name, clock, fault))
  {
    var u := FoldStep(t, o, name, clock, fault);
    forall id, ok ensures Recorded(u, id, ok) == Recorded(t, id, ok) + Gain(FoldRecord(t, o, name), clock, id, ok) {
      FoldConserves(t, o, name, clock, fault, id, ok);
    }
    FoldConserves(t, o, name, clock, fault, "", true);
    BalancedByOne(t, FoldRecord(t, o, name), clock, u);
  }

  /** Any other fold. */
  lemma {:induction false} UnrecordedFoldBalance(t: Trail, o: Options, name: Option<string>, clock: string, fault: FoldFault)
    requires WellFormed(t) && ClockIsFine(clock) && Folds(t, o) && NoOverflow(Lines(t.summary)) && !RecordIsOut(name, fault)
    ensures Balanced(t, [], FoldStep(t, o, name, clock, fault))
  {
    var u := FoldStep(t, o, name, clock, fault);
    forall id, ok ensures Recorded(u, id, ok) == Recorded(t, id, ok) { FoldConserves(t, o, name, clock, fault, id, ok); }
    FoldConserves(t, o, name, clock, fault, "", true);
    assert Unparsable(Lines(t.audit)) + [] == Unparsable(Lines(t.audit));
    BalancedUnchanged(t, u);
  }

  lemma {:induction false} FoldBalance(t: Trail, o: Options, name: Option<string>, clock: string, fault: FoldFault)
    requires WellFormed(t) && ClockIsFine(clock) && Folds(t, o) && NoOverflow(Lines(t.summary))
    ensures WellFormed(FoldStep(t, o, name, clock, fault))
    ensures Balanced(t, if RecordIsOut(name, fault) then [(FoldRecord(t, o, name), clock)] else [], FoldStep(t, o, name, clock, fault))
  {
    FoldConserves(t, o, name, clock, fault, "", true);
    if RecordIsOut(name, fault) {
      RecordedFoldBalance(t, o, name, clock, fault);
    } else {
      UnrecordedFoldBalance(t, o, name, clock, fault);
    }
  }

  lemma {:induction false} CountConcat(a: seq<(Record, string)>, b: seq<(Record, string)>, id: string, ok: bool)
    ensures Count(a + b, id, ok) == Count(a, id, ok) + Count(b, id, ok)
  {
    if a == [] {
      assert a + b == b;
    } else {
      CountConcat(a[1..], b, id, ok);
      assert (a + b)[1..] == a[1..] + b && (a + b)[0] == a[0];
    }
  }

  /** What one written record adds to the unstamped lines. */
  function UnstampedLine(w: (Record, string)): seq<string> { if w.1 == [] then [FormatLine(w.0, w.1)] else [] }

  lemma {:induction false} UnstampedConcat(a: seq<(Record, string)>, b: seq<(Record, string)>)
    ensures UnstampedLines(a + b) == UnstampedLines(a) + UnstampedLines(b)
  {
    if a == [] {
      assert a + b == b;
    } else {
      UnstampedConcat(a[1..], b);
      assert (a + b)[1..] == a[1..] + b && (a + b)[0] == a[0];
      Associate(UnstampedLine(a[0]), UnstampedLines(a[1..]), UnstampedLines(b));
    }
  }

  lemma {:induction false} RunConserves(t: Trail, es: seq<Event>)
    requires WellFormed(t) && SoundRun(t, es)
    ensures WellFormed(Run(t, es)) && Balanced(t, Written(t, es), Run(t, es))
    decreases |es|
  {
    if es == [] {
      BalancedByNothing(t);
    } else {
      StepConserves(t, es[0]);
      RunConserves(Step(t, es[0]), es[1..]);
      BalancedComposes(t, WrittenBy(t, es[0]), Step(t, es[0]), Written(Step(t, es[0]), es[1..]), Run(t, es));
    }
  }

  /**
    Over every run of appends, compactions and folds with any options, replacements that fail and
    are retried included: the counts of an operation in the audit file and in the summaries are
    those at the start plus every stamped record written since, the maintenance records among
    them; the unparsable audit lines are those at the start followed by the unstamped ones; and
    the lines of the summary file that are no summaries stay as they were.
   */
  lemma {:induction false} NothingIsLost(t: Trail, es: seq<Event>, id: string, ok: bool)
    requires WellFormed(t) && SoundRun(t, es)
    ensures Recorded(Run(t, es), id, ok) == Recorded(t, id, ok) + Count(Written(t, es), id, ok)
    ensures Unparsable(Lines(Run(t, es).audit)) == Unparsable(Lines(t.audit)) + UnstampedLines(Written(t, es))
    ensures Kept(Lines(Run(t, es).summary)) == Kept(Lines(t.summary))
  {
    RunConserves(t, es);
  }

  /** With the default options a readable file is never large enough for the byte threshold. */
  lemma {:induction false} DefaultsTriggerByLinesOnly(t: Trail)
    requires |t.audit| <= MAX_AUDIT_READ
    ensures ShouldCompact(|t.audit|, |Lines(t.audit)|, DEFAULTS) <==> |Lines(t.audit)| >= 20000
  {
  }
}
