/**
  Audit lines: how a record becomes one line, how the leading fields are read back, and how
  lines are aggregated into per-operation counts (source/audit/audit_log.cpp).
 */
module AuditLines {
  import opened Text

  datatype Risk = R0 | R1 | R2 | R3 | R4

  datatype Record = Record(operationId: string, risk: Risk, caller: string, target: string, detail: string, ok: bool)

  datatype Prefix = Prefix(timestamp: string, operationId: string, ok: bool)

  datatype OpCount = OpCount(operationId: string, ok: nat, fail: nat)

  /** Both the aggregate of audit lines and the record read back from a summary line. */
  datatype Summary = Summary(
    total: nat, ok: nat, fail: nat, unparsed: nat,
    byOperation: seq<OpCount>,
    firstTimestamp: string, lastTimestamp: string)

  const EMPTY := Summary(0, 0, 0, 0, [], "", "")

  const AUDIT_MARK := " [audit] "

  // ---------- writing a record ----------

  function RiskName(risk: Risk): string {
    match risk
    case R0 => "R0" case R1 => "R1" case R2 => "R2" case R3 => "R3" case R4 => "R4"
  }

  function SanitizeChar(c: char): char {
    if c as int < 0x20 || c as int == 0x7F then ' ' else c
  }

  function Sanitized(field: string): (s: string)
    ensures |s| == |field|
    ensures forall i | 0 <= i < |s| :: s[i] as int >= 0x20 && s[i] as int != 0x7F
    ensures forall i | 0 <= i < |s| :: s[i] == field[i] || (s[i] == ' ' && (field[i] as int < 0x20 || field[i] as int == 0x7F))
  {
    seq(|field|, i requires 0 <= i < |field| => SanitizeChar(field[i]))
  }

  method AppendSanitized(prefix: string, field: string) returns (out: string)
    ensures out == prefix + Sanitized(field)
  {
    out := prefix;
    for i := 0 to |field|
      invariant out == prefix + Sanitized(field)[..i]
    {
      out := out + [if field[i] as int < 0x20 || field[i] as int == 0x7F then ' ' else field[i]];
    }
  }

  /** The part of an audit line after its time stamp and marker. */
  function LineBody(r: Record): string {
    RiskName(r.risk) + " " + (Sanitized(r.operationId) + " " + ((if r.ok then "ok" else "fail") + " " + LineDetail(r)))
  }

  function LineDetail(r: Record): string {
    "caller=" + Sanitized(r.caller) + " target=" + Sanitized(r.target) + " detail=" + Sanitized(r.detail)
  }

  function FormatLine(r: Record, timestamp: string): string {
    timestamp + AUDIT_MARK + LineBody(r)
  }

  // ---------- reading the prefix back ----------

  /** Risk, operation and result are the first three blank-separated words of the body. */
  function ParseBody(body: string): Option<(string, bool)> {
    match Find(body, " ")
    case None => None
    case Some(afterRisk) =>
      var rest := body[afterRisk + 1..];
      match Find(rest, " ")
      case None => None
      case Some(afterOperation) =>
        var operationId := rest[..afterOperation];
        var rest := rest[afterOperation + 1..];
        var result := match Find(rest, " ") case None => rest case Some(k) => rest[..k];
        if operationId == [] then None
        else if result == "ok" then Some((operationId, true))
        else if result == "fail" then Some((operationId, false))
        else None
  }

  function ParsePrefix(line: string): Option<Prefix> {
    match Find(line, AUDIT_MARK)
    case None => None
    case Some(marker) =>
      if marker == 0 then None else
      match ParseBody(line[marker + |AUDIT_MARK|..])
      case None => None
      case Some((operationId, ok)) => Some(Prefix(line[..marker], operationId, ok))
  }

  /** What the local clock produces when it works: no bracket, no dot, and not empty. */
  predicate PlainTimestamp(t: string) { t != [] && '[' !in t && '.' !in t && OneLine(t) }

  /** An operation id as an audit line can carry it. */
  predicate WordId(id: string) { id != [] && ' ' !in id && OneLine(id) }

  /** An operation id that survives both line formats. */
  predicate PlainId(id: string) { WordId(id) && '=' !in id }

  /** The text of a line with its fixed words, field by field. */
  lemma {:induction false} LineText(r: Record, t: string)
    ensures FormatLine(r, t) == t + " [audit] " + (match r.risk case R0 => "R0" case R1 => "R1" case R2 => "R2" case R3 => "R3" case R4 => "R4")
      + " " + Sanitized(r.operationId) + (if r.ok then " ok" else " fail")
      + " caller=" + Sanitized(r.caller) + " target=" + Sanitized(r.target) + " detail=" + Sanitized(r.detail)
  {
    AssociateText(t + " [audit] ", RiskName(r.risk), Sanitized(r.operationId), if r.ok then "ok" else "fail", LineDetail(r));
    assert " " + (if r.ok then "ok" else "fail") == if r.ok then " ok" else " fail";
    AssociateDetail(t + " [audit] " + RiskName(r.risk) + " " + Sanitized(r.operationId) + (if r.ok then " ok" else " fail"),
                    Sanitized(r.caller), Sanitized(r.target), Sanitized(r.detail));
  }

  lemma {:induction false} AssociateText(head: string, risk: string, id: string, result: string, detail: string)
    ensures head + (risk + " " + (id + " " + (result + " " + detail))) == head + risk + " " + id + (" " + result) + (" " + detail)
  {
  }

  lemma {:induction false} AssociateDetail(head: string, caller: string, target: string, detail: string)
    ensures head + (" " + ("caller=" + caller + " target=" + target + " detail=" + detail))
         == head + " caller=" + caller + " target=" + target + " detail=" + detail
  {
    assert " " + ("caller=" + caller + " target=" + target + " detail=" + detail) == " caller=" + caller + " target=" + target + " detail=" + detail;
  }

  /** A body is read word by word. */
  lemma {:induction false} WordsParse(risk: string, id: string, result: string, detail: string)
    requires ' ' !in risk && ' ' !in id && ' ' !in result && id != []
    ensures ParseBody(risk + " " + (id + " " + (result + " " + detail)))
         == if result == "ok" then Some((id, true)) else if result == "fail" then Some((id, false)) else None
  {
    FindSeparator(risk, ' ', id + " " + (result + " " + detail));
    FindSeparator(id, ' ', result + " " + detail);
    FindSeparator(result, ' ', detail);
  }

  lemma {:induction false} BodyParses(r: Record)
    requires r.operationId != [] && ' ' !in Sanitized(r.operationId)
    ensures ParseBody(LineBody(r)) == Some((Sanitized(r.operationId), r.ok))
  {
    WordsParse(RiskName(r.risk), Sanitized(r.operationId), if r.ok then "ok" else "fail", LineDetail(r));
  }

  /** A written record reads back as its own time stamp, operation and result, whatever its other fields hold. */
  lemma {:induction false} WrittenLineParses(r: Record, t: string)
    requires t != [] && '[' !in t
    requires r.operationId != [] && ' ' !in Sanitized(r.operationId)
    ensures ParsePrefix(FormatLine(r, t)) == Some(Prefix(t, Sanitized(r.operationId), r.ok))
  {
    FindAfter(t, AUDIT_MARK, LineBody(r), 1);
    var line := FormatLine(r, t);
    assert line[|t| + |AUDIT_MARK|..] == LineBody(r) && line[..|t|] == t;
    BodyParses(r);
  }

  /** When the clock gave no time stamp the written line has nothing before its marker and is unparsable. */
  lemma {:induction false} UnstampedLineIsUnparsable(r: Record)
    ensures ParsePrefix(FormatLine(r, "")) == None
  {
    var line := FormatLine(r, "");
    assert At(line, AUDIT_MARK, 0);
  }

  /** A written line never contains a newline. */
  lemma {:induction false} WrittenLineIsOneLine(r: Record, t: string)
    requires OneLine(t)
    ensures OneLine(FormatLine(r, t))
  {
    assert OneLine(LineDetail(r));
    assert OneLine(LineBody(r));
  }

  lemma {:induction false} ParsedBodyIdIsAWord(body: string)
    requires ParseBody(body).Some? && OneLine(body)
    ensures WordId(ParseBody(body).value.0)
  {
    FindCharFound(body, ' ', 0);
    var rest := body[Find(body, " ").value + 1..];
    FindCharFound(rest, ' ', 0);
    assert forall c | c in rest :: c in body;
  }

  /** Whatever a line is, an operation id read from it is non-empty and free of blanks. */
  lemma {:induction false} ParsedIdIsAWord(line: string)
    requires ParsePrefix(line).Some? && OneLine(line)
    ensures WordId(ParsePrefix(line).value.operationId)
    ensures ParsePrefix(line).value.timestamp != []
  {
    var marker := Find(line, AUDIT_MARK).value;
    var body := line[marker + |AUDIT_MARK|..];
    assert forall c | c in body :: c in line;
    ParsedBodyIdIsAWord(body);
  }

  // ---------- aggregating lines ----------

  /** 64-bit addition. */
  function AddWord(a: nat, b: nat): (r: nat)
    ensures r < WORD && (a + b < WORD ==> r == a + b)
  {
    (a + b) % WORD
  }

  /** Adds to the first entry of an operation, or appends an entry for it. */
  function Bump(ops: seq<OpCount>, id: string, ok: nat, fail: nat): seq<OpCount> {
    if ops == [] then [OpCount(id, AddWord(0, ok), AddWord(0, fail))]
    else if ops[0].operationId == id then
      [OpCount(id, AddWord(ops[0].ok, ok), AddWord(ops[0].fail, fail))] + ops[1..]
    else [ops[0]] + Bump(ops[1..], id, ok, fail)
  }

  function AddLine(s: Summary, line: string): Summary {
    match ParsePrefix(line)
    case None => s.(unparsed := AddWord(s.unparsed, 1))
    case Some(p) =>
      Summary(AddWord(s.total, 1),
              if p.ok then AddWord(s.ok, 1) else s.ok,
              if p.ok then s.fail else AddWord(s.fail, 1),
              s.unparsed,
              if p.ok then Bump(s.byOperation, p.operationId, 1, 0) else Bump(s.byOperation, p.operationId, 0, 1),
              if s.firstTimestamp == [] then p.timestamp else s.firstTimestamp,
              p.timestamp)
  }

  function Summarize(lines: seq<string>): Summary {
    if lines == [] then EMPTY else AddLine(Summarize(lines[..|lines| - 1]), lines[|lines| - 1])
  }

  /** Search for the entry, append it when missing, then update it in place. */
  lemma {:induction false} BumpSkips(ops: seq<OpCount>, k: nat, id: string, ok: nat, fail: nat)
    requires k < |ops| && ops[k].operationId != id
    ensures ops[..k] + Bump(ops[k..], id, ok, fail) == ops[..k + 1] + Bump(ops[k + 1..], id, ok, fail)
  {
    assert ops[k..][0] == ops[k] && ops[k..][1..] == ops[k + 1..];
    Associate(ops[..k], [ops[k]], Bump(ops[k + 1..], id, ok, fail));
    assert ops[..k] + [ops[k]] == ops[..k + 1];
  }

  /** Where the search ends: at the entry, which is raised, or at the end, where one is added. */
  lemma {:induction false} BumpEnds(ops: seq<OpCount>, k: nat, id: string, ok: nat, fail: nat)
    requires k <= |ops| && (k < |ops| ==> ops[k].operationId == id)
    ensures k < |ops| ==> ops[..k] + Bump(ops[k..], id, ok, fail) == ops[k := OpCount(id, AddWord(ops[k].ok, ok), AddWord(ops[k].fail, fail))]
    ensures k == |ops| ==> ops[..k] + Bump(ops[k..], id, ok, fail) == ops + [OpCount(id, AddWord(0, ok), AddWord(0, fail))]
  {
    if k < |ops| {
      assert ops[k..][0] == ops[k] && ops[k..][1..] == ops[k + 1..];
    } else {
      assert ops[..k] == ops && ops[k..] == [];
    }
  }

  method BumpEntry(ops: seq<OpCount>, id: string, ok: nat, fail: nat) returns (out: seq<OpCount>)
    ensures out == Bump(ops, id, ok, fail)
  {
    var k := 0;
    while k < |ops| && ops[k].operationId != id
      invariant 0 <= k <= |ops|
      invariant Bump(ops, id, ok, fail) == ops[..k] + Bump(ops[k..], id, ok, fail)
    {
      BumpSkips(ops, k, id, ok, fail);
      k := k + 1;
    }
    BumpEnds(ops, k, id, ok, fail);
    out := ops;
    if k == |ops| {
      out := out + [OpCount(id, 0, 0)];
    }
    out := out[k := OpCount(id, AddWord(out[k].ok, ok), AddWord(out[k].fail, fail))];
  }

  method SummarizeAuditLines(lines: seq<string>) returns (summary: Summary)
    ensures summary == Summarize(lines)
  {
    summary := EMPTY;
    for i := 0 to |lines|
      invariant summary == Summarize(lines[..i])
    {
      assert lines[..i + 1][..i] == lines[..i];
      var prefix := ParsePrefix(lines[i]);
      if prefix.None? {
        summary := summary.(unparsed := AddWord(summary.unparsed, 1));
        continue;
      }
      var p := prefix.value;
      summary := summary.(total := AddWord(summary.total, 1));
      if p.ok {
        summary := summary.(ok := AddWord(summary.ok, 1));
      } else {
        summary := summary.(fail := AddWord(summary.fail, 1));
      }
      var ops := BumpEntry(summary.byOperation, p.operationId, if p.ok then 1 else 0, if p.ok then 0 else 1);
      summary := summary.(byOperation := ops);
      if summary.firstTimestamp == [] {
        summary := summary.(firstTimestamp := p.timestamp);
      }
      summary := summary.(lastTimestamp := p.timestamp);
    }
    assert lines[..|lines|] == lines;
  }

  // ---------- what the aggregate counts ----------

  function Side(c: OpCount, ok: bool): nat { if ok then c.ok else c.fail }

  /** Everything a list of entries says about one operation and one result. */
  function Tally(ops: seq<OpCount>, id: string, ok: bool): nat {
    if ops == [] then 0
    else (if ops[0].operationId == id then Side(ops[0], ok) else 0) + Tally(ops[1..], id, ok)
  }

  predicate IsLive(line: string, id: string, ok: bool) {
    ParsePrefix(line).Some? && ParsePrefix(line).value.operationId == id && ParsePrefix(line).value.ok == ok
  }

  /** Number of lines that record this operation with this result. */
  function Live(lines: seq<string>, id: string, ok: bool): (n: nat)
    ensures n <= |lines|
  {
    if lines == [] then 0 else (if IsLive(lines[0], id, ok) then 1 else 0) + Live(lines[1..], id, ok)
  }

  lemma {:induction false} LiveConcat(a: seq<string>, b: seq<string>, id: string, ok: bool)
    ensures Live(a + b, id, ok) == Live(a, id, ok) + Live(b, id, ok)
  {
    if a == [] {
      assert a + b == b;
    } else {
      assert (a + b)[1..] == a[1..] + b;
      LiveConcat(a[1..], b, id, ok);
    }
  }

  /** Adding to one operation raises its tally by exactly that much and leaves every other one alone. */
  lemma {:induction false} BumpTally(ops: seq<OpCount>, id: string, ok: nat, fail: nat, x: string, side: bool)
    requires Tally(ops, id, true) + ok < WORD && Tally(ops, id, false) + fail < WORD
    ensures Tally(Bump(ops, id, ok, fail), x, side)
         == Tally(ops, x, side) + if x == id then (if side then ok else fail) else 0
  {
    if ops != [] {
      if ops[0].operationId == id {
        assert Bump(ops, id, ok, fail)[1..] == ops[1..];
      } else {
        BumpTally(ops[1..], id, ok, fail, x, side);
        assert Bump(ops, id, ok, fail)[1..] == Bump(ops[1..], id, ok, fail);
      }
    }
  }

  /** Aggregation loses no line: the totals add up and each operation's tally is its number of lines. */
  lemma {:induction false} SummarizeCounts(lines: seq<string>, id: string, ok: bool)
    requires |lines| < WORD
    ensures var s := Summarize(lines);
            && s.total + s.unparsed == |lines| && s.ok + s.fail == s.total
            && Tally(s.byOperation, id, ok) == Live(lines, id, ok)
  {
    if lines != [] {
      var init, last := lines[..|lines| - 1], lines[|lines| - 1];
      assert lines == init + [last];
      SummarizeCounts(init, id, ok);
      LiveConcat(init, [last], id, ok);
      if ParsePrefix(last).Some? {
        var p := ParsePrefix(last).value;
        SummarizeCounts(init, p.operationId, true);
        SummarizeCounts(init, p.operationId, false);
        BumpTally(Summarize(init).byOperation, p.operationId, if p.ok then 1 else 0, if p.ok then 0 else 1, id, ok);
      }
    }
  }

  /** Number of parsable lines with this result. */
  function Outcomes(lines: seq<string>, ok: bool): nat {
    if lines == [] then 0
    else
      var last := ParsePrefix(lines[|lines| - 1]);
      Outcomes(lines[..|lines| - 1], ok) + if last.Some? && last.value.ok == ok then 1 else 0
  }

  /** The four totals are what they are called, and nothing overflows. */
  lemma {:induction false} SummarizeFields(lines: seq<string>)
    requires |lines| < WORD
    ensures var s := Summarize(lines);
            && s.ok == Outcomes(lines, true) && s.fail == Outcomes(lines, false)
            && s.total == s.ok + s.fail && s.unparsed == |lines| - s.total
  {
    if lines != [] { SummarizeFields(lines[..|lines| - 1]); }
  }

  /** What is read from each line. */
  function Prefixes(lines: seq<string>): (ps: seq<Option<Prefix>>)
    ensures |ps| == |lines| && forall i | 0 <= i < |ps| :: ps[i] == ParsePrefix(lines[i])
  {
    seq(|lines|, i requires 0 <= i < |lines| => ParsePrefix(lines[i]))
  }

  function StartOf(ps: seq<Option<Prefix>>): string {
    if ps == [] then ""
    else if StartOf(ps[..|ps| - 1]) != "" then StartOf(ps[..|ps| - 1])
    else if ps[|ps| - 1].Some? then ps[|ps| - 1].value.timestamp else ""
  }

  function EndOf(ps: seq<Option<Prefix>>): string {
    if ps == [] then "" else if ps[|ps| - 1].Some? then ps[|ps| - 1].value.timestamp else EndOf(ps[..|ps| - 1])
  }

  lemma {:induction false} SummarizeStamps(lines: seq<string>)
    ensures Summarize(lines).firstTimestamp == StartOf(Prefixes(lines))
    ensures Summarize(lines).lastTimestamp == EndOf(Prefixes(lines))
  {
    if lines != [] {
      SummarizeStamps(lines[..|lines| - 1]);
      assert Prefixes(lines)[..|lines| - 1] == Prefixes(lines[..|lines| - 1]);
    }
  }

  lemma {:induction false} StampIsNotEmpty(line: string)
    requires ParsePrefix(line).Some?
    ensures ParsePrefix(line).value.timestamp != ""
  {
  }

  lemma {:induction false} NoStamp(ps: seq<Option<Prefix>>)
    requires forall k | 0 <= k < |ps| :: ps[k].None?
    ensures StartOf(ps) == ""
  {
    if ps != [] { NoStamp(ps[..|ps| - 1]); }
  }

  lemma {:induction false} StartIsAt(ps: seq<Option<Prefix>>, first: nat)
    requires first < |ps| && ps[first].Some? && ps[first].value.timestamp != "" && forall k | 0 <= k < first :: ps[k].None?
    ensures StartOf(ps) == ps[first].value.timestamp
  {
    var n := |ps| - 1;
    if first < n { StartIsAt(ps[..n], first); } else { NoStamp(ps[..n]); }
  }

  lemma {:induction false} EndIsAt(ps: seq<Option<Prefix>>, last: nat)
    requires last < |ps| && ps[last].Some? && forall k | last < k < |ps| :: ps[k].None?
    ensures EndOf(ps) == ps[last].value.timestamp
  {
    if last < |ps| - 1 { EndIsAt(ps[..|ps| - 1], last); }
  }

  /** The range runs from the stamp of the first parsable line to that of the last. */
  lemma {:induction false} SummarizeRange(lines: seq<string>, ps: seq<Option<Prefix>>, first: nat, last: nat)
    requires ps == Prefixes(lines)
    requires first < |ps| && ps[first].Some? && forall k | 0 <= k < first :: ps[k].None?
    requires last < |ps| && ps[last].Some? && forall k | last < k < |ps| :: ps[k].None?
    ensures Summarize(lines).firstTimestamp == ps[first].value.timestamp && Summarize(lines).lastTimestamp == ps[last].value.timestamp
  {
    SummarizeStamps(lines);
    StampIsNotEmpty(lines[first]);
    StartIsAt(ps, first);
    EndIsAt(ps, last);
  }

  ghost predicate IdsAreWords(ops: seq<OpCount>) { forall c | c in ops :: WordId(c.operationId) }

  ghost predicate IdsArePlain(ops: seq<OpCount>) { forall c | c in ops :: PlainId(c.operationId) }

  lemma {:induction false} BumpKeepsPlainIds(ops: seq<OpCount>, id: string, ok: nat, fail: nat)
    requires IdsArePlain(ops) && PlainId(id)
    ensures IdsArePlain(Bump(ops, id, ok, fail))
  {
    if ops != [] && ops[0].operationId != id {
      BumpKeepsPlainIds(ops[1..], id, ok, fail);
    }
  }

  lemma {:induction false} BumpKeepsWordIds(ops: seq<OpCount>, id: string, ok: nat, fail: nat)
    requires IdsAreWords(ops) && WordId(id)
    ensures IdsAreWords(Bump(ops, id, ok, fail))
  {
    if ops != [] && ops[0].operationId != id {
      BumpKeepsWordIds(ops[1..], id, ok, fail);
    }
  }

  /** A tally comes from an entry. */
  lemma {:induction false} TallyWitness(ops: seq<OpCount>, id: string, ok: bool) returns (c: OpCount)
    requires Tally(ops, id, ok) > 0
    ensures c in ops && c.operationId == id
  {
    if ops[0].operationId == id { c := ops[0]; } else { c := TallyWitness(ops[1..], id, ok); }
  }

  /** No single entry exceeds the tally of its operation. */
  lemma {:induction false} TallyCovers(ops: seq<OpCount>, c: OpCount, ok: bool)
    requires c in ops
    ensures Side(c, ok) <= Tally(ops, c.operationId, ok)
  {
    if c != ops[0] {
      assert c in ops[1..];
      TallyCovers(ops[1..], c, ok);
    }
  }
}
