/**
  The one-line text form of an audit summary and its strict parser (source/audit/audit_log.cpp):
  printing and parsing are proved inverse, on exactly the counts the overflow guard admits.
 */
module AuditSummaryCodec {
  import opened Text
  import opened AuditLines

  const SUMMARY_MARK := " [audit-summary] "

  // ---------- printing ----------

  function CountsText(c: OpCount): string { Decimal(c.ok) + "/" + Decimal(c.fail) }

  function OpText(c: OpCount): string { c.operationId + "=" + CountsText(c) }

  /** Every operation field is preceded by a blank. */
  function OpsText(ops: seq<OpCount>): string {
    if ops == [] then "" else " " + OpText(ops[0]) + OpsText(ops[1..])
  }

  function Fields(s: Summary): string {
    "total=" + (Decimal(s.total) + (" " + OkField(s)))
  }

  function OkField(s: Summary): string { "ok=" + (Decimal(s.ok) + (" " + FailField(s))) }

  function FailField(s: Summary): string { "fail=" + (Decimal(s.fail) + (" " + UnparsedField(s))) }

  function UnparsedField(s: Summary): string { "unparsed=" + (Decimal(s.unparsed) + OpsText(s.byOperation)) }

  function Range(s: Summary): string {
    if s.firstTimestamp == [] then "" else s.firstTimestamp + ".." + s.lastTimestamp
  }

  function FormatSummary(s: Summary): string { Range(s) + SUMMARY_MARK + Fields(s) }

  /** The text of a summary line with its fixed words. */
  lemma {:induction false} SummaryText(s: Summary)
    ensures FormatSummary(s) == (if s.firstTimestamp == "" then "" else s.firstTimestamp + ".." + s.lastTimestamp)
      + " [audit-summary] " + ("total=" + (Decimal(s.total) + (" ok=" + (Decimal(s.ok) + (" fail=" + (Decimal(s.fail)
      + (" unparsed=" + (Decimal(s.unparsed) + OpsText(s.byOperation)))))))))
  {
    NextField("ok=", " ok=", Decimal(s.ok) + (" " + FailField(s)));
    NextField("fail=", " fail=", Decimal(s.fail) + (" " + UnparsedField(s)));
    NextField("unparsed=", " unparsed=", Decimal(s.unparsed) + OpsText(s.byOperation));
  }

  lemma {:induction false} NextField(key: string, spaced: string, rest: string)
    requires spaced == " " + key
    ensures " " + (key + rest) == spaced + rest
  {
  }

  /** An operation adds a blank, its id and its two counts; the next follow. */
  lemma {:induction false} OpsTextOf(c: OpCount, rest: seq<OpCount>)
    ensures OpsText([c] + rest) == " " + c.operationId + "=" + Decimal(c.ok) + "/" + Decimal(c.fail) + OpsText(rest)
    ensures OpsText([]) == ""
  {
    assert ([c] + rest)[1..] == rest && ([c] + rest)[0] == c;
    assert " " + OpText(c) == " " + c.operationId + "=" + Decimal(c.ok) + "/" + Decimal(c.fail);
  }

  method FormatOps(ops: seq<OpCount>) returns (text: string)
    ensures text == OpsText(ops)
  {
    text := "";
    for i := 0 to |ops|
      invariant text + OpsText(ops[i..]) == OpsText(ops)
    {
      assert ops[i..][0] == ops[i] && ops[i..][1..] == ops[i + 1..];
      Associate(text, " " + OpText(ops[i]), OpsText(ops[i + 1..]));
      text := text + (" " + OpText(ops[i]));
    }
  }

  method FormatAuditSummaryLine(summary: Summary) returns (line: string)
    ensures line == FormatSummary(summary)
  {
    var range := summary.firstTimestamp;
    if summary.firstTimestamp != [] {
      range := range + ".." + summary.lastTimestamp;
    }
    var text := FormatOps(summary.byOperation);
    text := "unparsed=" + (Decimal(summary.unparsed) + text);
    text := "fail=" + (Decimal(summary.fail) + (" " + text));
    text := "ok=" + (Decimal(summary.ok) + (" " + text));
    text := "total=" + (Decimal(summary.total) + (" " + text));
    line := range + SUMMARY_MARK + text;
  }

  // ---------- parsing ----------

  /** `<key><digits>`: a missing key, no digits or an overflow is not a zero. */
  function ExtractCount(fields: string, key: string): Option<nat> {
    match Find(fields, key)
    case None => None
    case Some(at) => ParseNat(DigitRun(fields, at + |key|))
  }

  /** What follows the blank after the first occurrence of a key; nothing if there is none. */
  function AfterKey(rest: string, key: string): string {
    match Find(rest, key)
    case None => []
    case Some(at) =>
      match Find(rest, " ", at)
      case None => []
      case Some(end) => rest[end + 1..]
  }

  /** `<op>=<ok>/<fail>`; the slash is searched behind the first '='. */
  function ParseOp(token: string): Option<OpCount> {
    match Find(token, "=")
    case None => None
    case Some(eq) =>
      if eq == 0 then None else
      var counts := token[eq + 1..];
      match Find(counts, "/")
      case None => None
      case Some(slash) =>
        var ok, fail := ParseNat(counts[..slash]), ParseNat(counts[slash + 1..]);
        if ok.Some? && fail.Some? then Some(OpCount(token[..eq], ok.value, fail.value)) else None
  }

  /** One malformed token spoils the whole list; empty tokens are skipped. */
  function ParseTokens(tokens: seq<string>): Option<seq<OpCount>> {
    if tokens == [] then Some([])
    else if tokens[0] == [] then ParseTokens(tokens[1..])
    else
      match ParseOp(tokens[0])
      case None => None
      case Some(op) => Prepend([op], ParseTokens(tokens[1..]))
  }

  function Prepend(ops: seq<OpCount>, rest: Option<seq<OpCount>>): Option<seq<OpCount>> {
    if rest.Some? then Some(ops + rest.value) else None
  }

  function ParseOps(rest: string): Option<seq<OpCount>> { ParseTokens(Split(rest, ' ')) }

  function ParseRange(range: string): Option<(string, string)> {
    if range == [] then Some(("", ""))
    else
      match Find(range, "..")
      case None => None
      case Some(dots) =>
        if dots == 0 || dots + 2 == |range| then None else Some((range[..dots], range[dots + 2..]))
  }

  function OpsPart(fields: string): string {
    AfterKey(AfterKey(AfterKey(AfterKey(fields, "total="), "ok="), "fail="), "unparsed=")
  }

  function ParseSummary(line: string): Option<Summary> {
    match Find(line, SUMMARY_MARK)
    case None => None
    case Some(at) =>
      match ParseRange(line[..at])
      case None => None
      case Some((first, last)) =>
        var fields := line[at + |SUMMARY_MARK|..];
        var total, ok := ExtractCount(fields, "total="), ExtractCount(fields, "ok=");
        var fail, unparsed := ExtractCount(fields, "fail="), ExtractCount(fields, "unparsed=");
        if total.None? || ok.None? || fail.None? || unparsed.None? then None
        else
          match ParseOps(OpsPart(fields))
          case None => None
          case Some(ops) => Some(Summary(total.value, ok.value, fail.value, unparsed.value, ops, first, last))
  }

  /** Reads digits until something else stands there; the guard fires before 64 bits could overflow. */
  method ReadDigits(fields: string, start: nat) returns (r: Option<nat>)
    requires start <= |fields|
    ensures r == ParseNat(DigitRun(fields, start))
  {
    var value: nat := 0;
    var i := start;
    while i < |fields| && IsDigit(fields[i])
      invariant start <= i <= |fields| && HaveRead(fields, start, i, value)
    {
      if value > GUARD {
        GuardRefusesRun(fields, start, i);
        return None;
      }
      ReadOneMore(fields, start, i, value);
      value := value * 10 + DigitValue(fields[i]);
      i := i + 1;
    }
    ReadToTheEnd(fields, start, i, value);
    r := if i == start then None else Some(value);
  }

  /** The digits up to here, and the number they denote. */
  ghost predicate HaveRead(fields: string, start: nat, i: nat, value: nat)
    requires start <= i <= |fields|
  {
    AllDigits(fields[start..i]) && value == Value(fields[start..i]) < PARSE_LIMIT
  }

  lemma {:induction false} ReadOneMore(fields: string, start: nat, i: nat, value: nat)
    requires start <= i < |fields| && HaveRead(fields, start, i, value) && IsDigit(fields[i]) && value <= GUARD
    ensures HaveRead(fields, start, i + 1, value * 10 + DigitValue(fields[i]))
  {
    DigitsGrow(fields, start, i);
  }

  lemma {:induction false} ReadToTheEnd(fields: string, start: nat, i: nat, value: nat)
    requires start <= i <= |fields| && HaveRead(fields, start, i, value) && (i < |fields| ==> !IsDigit(fields[i]))
    ensures ParseNat(DigitRun(fields, start)) == if i == start then None else Some(value)
  {
    DigitRunIs(fields, start, fields[start..i]);
  }

  method ExtractCountLoop(fields: string, key: string) returns (r: Option<nat>)
    ensures r == ExtractCount(fields, key)
  {
    var at := Find(fields, key);
    if at.None? { return None; }
    r := ReadDigits(fields, at.value + |key|);
  }

  method ParseAuditSummaryLine(line: string) returns (r: Option<Summary>)
    ensures r == ParseSummary(line)
  {
    var markerAt := Find(line, SUMMARY_MARK);
    if markerAt.None? { return None; }
    var range := line[..markerAt.value];
    var first, last := "", "";
    if range != [] {
      var dots := Find(range, "..");
      if dots.None? { return None; }
      first, last := range[..dots.value], range[dots.value + 2..];
      if first == [] || last == [] { return None; }
    }
    assert ParseRange(range) == Some((first, last));
    var fields := line[markerAt.value + |SUMMARY_MARK|..];
    var total := ExtractCountLoop(fields, "total=");
    if total.None? { return None; }
    var ok := ExtractCountLoop(fields, "ok=");
    if ok.None? { return None; }
    var fail := ExtractCountLoop(fields, "fail=");
    if fail.None? { return None; }
    var unparsed := ExtractCountLoop(fields, "unparsed=");
    if unparsed.None? { return None; }
    var ops := ParseOpsLoop(fields);
    if ops.None? { return None; }
    return Some(Summary(total.value, ok.value, fail.value, unparsed.value, ops.value, first, last));
  }

  lemma {:induction false} PrependOne(ops: seq<OpCount>, op: OpCount, rest: Option<seq<OpCount>>)
    ensures Prepend(ops, Prepend([op], rest)) == Prepend(ops + [op], rest)
    ensures Prepend([], rest) == rest
  {
    if rest.Some? {
      assert ops + ([op] + rest.value) == ops + [op] + rest.value;
      assert [] + rest.value == rest.value;
    }
  }

  method ParseOpsLoop(fields: string) returns (r: Option<seq<OpCount>>)
    ensures r == ParseOps(OpsPart(fields))
  {
    var rest := fields;
    rest := AfterKey(rest, "total=");
    rest := AfterKey(rest, "ok=");
    rest := AfterKey(rest, "fail=");
    rest := AfterKey(rest, "unparsed=");
    r := ParseTokensLoop(rest);
  }

  method ParseTokensLoop(text: string) returns (r: Option<seq<OpCount>>)
    ensures r == ParseOps(text)
  {
    var rest, ops := text, [];
    PrependOne([], OpCount("", 0, 0), ParseOps(text));
    while rest != []
      invariant ParseOps(text) == Prepend(ops, ParseOps(rest))
      decreases |rest|
    {
      var end := Find(rest, " ");
      var token := if end.Some? then rest[..end.value] else rest;
      var tail := if end.Some? then rest[end.value + 1..] else [];
      assert Split(rest, ' ') == [token] + Split(tail, ' ');
      if token != [] {
        var op := ParseOp(token);
        if op.None? { return None; }
        PrependOne(ops, op.value, ParseOps(tail));
        ops := ops + [op.value];
      }
      rest := tail;
    }
    assert ops + [] == ops;
    return Some(ops);
  }

  // ---------- printing then parsing ----------

  ghost predicate CountsFit(s: Summary) {
    && s.total < PARSE_LIMIT && s.ok < PARSE_LIMIT && s.fail < PARSE_LIMIT && s.unparsed < PARSE_LIMIT
    && OpsFit(s.byOperation)
  }

  ghost predicate OpsFit(ops: seq<OpCount>) { forall i | 0 <= i < |ops| :: OpFits(ops[i]) }

  /** A start of range that the search for ".." gives back whole and that hides no marker. */
  ghost predicate FirstIsClean(t: string) {
    && t != [] && OneLine(t)
    && (forall j | 0 <= j < |t| :: !At(t + "..", "..", j))
    && (forall j | 0 <= j < |t| :: !At(t, SUMMARY_MARK, j))
  }

  /** The marker does not begin inside the text, not even together with the marker that follows it. */
  ghost predicate HidesNoMarker(t: string) { forall j | 0 <= j < |t| :: !At(t + SUMMARY_MARK, SUMMARY_MARK, j) }

  ghost predicate LastIsClean(t: string) { t != [] && OneLine(t) && HidesNoMarker(t) }

  /** The summaries the text form can carry. */
  ghost predicate Printable(s: Summary) {
    && IdsAreWords(s.byOperation)
    && ((s.firstTimestamp == [] && s.lastTimestamp == [])
        || (FirstIsClean(s.firstTimestamp) && LastIsClean(s.lastTimestamp)))
  }

  /** Time stamps as the clock writes them are clean on both sides. */
  lemma {:induction false} PlainTimestampIsClean(t: string)
    requires PlainTimestamp(t)
    ensures FirstIsClean(t) && LastIsClean(t)
  {
    forall j | 0 <= j < |t|
      ensures !At(t + "..", "..", j) && !At(t, SUMMARY_MARK, j) && !At(t + SUMMARY_MARK, SUMMARY_MARK, j)
    {
      AtHasChar(t + "..", "..", j, 0);
      AtHasChar(t, SUMMARY_MARK, j, 1);
      AtHasChar(t + SUMMARY_MARK, SUMMARY_MARK, j, 1);
    }
  }

  /** An occurrence that starts before the end of a prefix is seen in any extension of it. */
  lemma {:induction false} AtShift(pre: string, s: string, p: string, j: nat)
    requires |pre| <= j
    ensures At(pre + s, p, j) <==> At(s, p, j - |pre|)
  {
    if j + |p| <= |pre| + |s| {
      assert (pre + s)[j..j + |p|] == s[j - |pre|..j - |pre| + |p|];
    }
  }

  lemma {:induction false} AtPrefix(s: string, post: string, p: string, j: nat)
    requires j + |p| <= |s|
    ensures At(s + post, p, j) <==> At(s, p, j)
  {
    assert (s + post)[j..j + |p|] == s[j..j + |p|];
  }

  /** The marker of a printed range is the one that was printed. */
  lemma {:induction false} RangeHidesNoMarker(first: string, last: string, j: nat)
    requires (forall i | 0 <= i < |first| :: !At(first, SUMMARY_MARK, i)) && HidesNoMarker(last) && j < |first + ".." + last|
    ensures !At(first + ".." + last + SUMMARY_MARK, SUMMARY_MARK, j)
  {
    var s := first + ".." + last + SUMMARY_MARK;
    if j >= |first| + 2 {
      assert s == (first + "..") + (last + SUMMARY_MARK);
      AtShift(first + "..", last + SUMMARY_MARK, SUMMARY_MARK, j);
    } else if j + |SUMMARY_MARK| <= |first| {
      assert s == first + (".." + last + SUMMARY_MARK);
      AtPrefix(first, ".." + last + SUMMARY_MARK, SUMMARY_MARK, j);
    } else {
      var k := if j <= |first| then |first| - j else 0;
      assert s[j + k] == '.';
      AtHasChar(s, SUMMARY_MARK, j, k);
      assert '.' !in SUMMARY_MARK;
    }
  }

  lemma {:induction false} RangeParses(first: string, last: string)
    requires FirstIsClean(first) && LastIsClean(last)
    ensures ParseRange(first + ".." + last) == Some((first, last))
  {
    var range := first + ".." + last;
    forall j | 0 <= j < |first| ensures !At(range, "..", j) {
      assert range == (first + "..") + last;
      AtPrefix(first + "..", last, "..", j);
    }
    FindIs(range, "..", 0, |first|);
    assert range[..|first|] == first && range[|first| + 2..] == last;
  }

  lemma {:induction false} MarkerIsFound(s: Summary)
    requires s.firstTimestamp != [] ==> (forall i | 0 <= i < |s.firstTimestamp| :: !At(s.firstTimestamp, SUMMARY_MARK, i)) && HidesNoMarker(s.lastTimestamp)
    ensures Find(FormatSummary(s), SUMMARY_MARK) == Some(|Range(s)|)
  {
    var range, line := Range(s), FormatSummary(s);
    forall j | 0 <= j < |range| ensures !At(line, SUMMARY_MARK, j) {
      RangeHidesNoMarker(s.firstTimestamp, s.lastTimestamp, j);
      AtPrefix(range + SUMMARY_MARK, Fields(s), SUMMARY_MARK, j);
    }
    FindIs(line, SUMMARY_MARK, 0, |range|);
  }

  lemma {:induction false} HeadParses(s: Summary)
    requires Printable(s)
    ensures Find(FormatSummary(s), SUMMARY_MARK) == Some(|Range(s)|)
    ensures ParseRange(Range(s)) == Some((s.firstTimestamp, s.lastTimestamp))
  {
    MarkerIsFound(s);
    if s.firstTimestamp != [] { RangeParses(s.firstTimestamp, s.lastTimestamp); }
  }

  lemma {:induction false} NumberRuns(pre: string, d: string, post: string)
    requires AllDigits(d) && (post == [] || !IsDigit(post[0]))
    ensures DigitRun(pre + (d + post), |pre|) == d
  {
    var s := pre + (d + post);
    assert s[|pre|..|pre| + |d|] == d;
    if post != [] { assert s[|pre| + |d|] == post[0]; }
    DigitRunIs(s, |pre|, d);
  }

  lemma {:induction false} FoundCount(fields: string, key: string, at: nat, d: string)
    requires Find(fields, key) == Some(at) && DigitRun(fields, at + |key|) == d
    ensures ExtractCount(fields, key) == ParseNat(d)
  {
  }

  lemma {:induction false} KeyIsFound(pre: string, key: string, d: string, post: string, k: nat)
    requires IsForeign(key, k, pre)
    ensures Find(pre + key + (d + post), key) == Some(|pre|)
  {
    FindAfter(pre, key, d + post, k);
  }

  lemma {:induction false} RunIsFound(pre: string, key: string, d: string, post: string)
    requires AllDigits(d) && (post == [] || !IsDigit(post[0]))
    ensures DigitRun(pre + key + (d + post), |pre| + |key|) == d
  {
    NumberRuns(pre + key, d, post);
  }

  /** Digits behind a key that is found are read back. */
  lemma {:induction false} DigitsParse(pre: string, key: string, d: string, post: string)
    requires Find(pre + key + (d + post), key) == Some(|pre|)
    requires AllDigits(d) && (post == [] || !IsDigit(post[0]))
    ensures ExtractCount(pre + key + (d + post), key) == ParseNat(d)
  {
    RunIsFound(pre, key, d, post);
    FoundCount(pre + key + (d + post), key, |pre|, d);
  }

  /** A printed count is found behind its key and read back, if the guard admits it. */
  lemma {:induction false} CountParses(pre: string, key: string, n: nat, post: string, k: nat)
    requires IsForeign(key, k, pre)
    requires post == [] || post[0] == ' '
    ensures ExtractCount(pre + key + (Decimal(n) + post), key) == if n < PARSE_LIMIT then Some(n) else None
  {
    KeyIsFound(pre, key, Decimal(n), post, k);
    DigitsParse(pre, key, Decimal(n), post);
    DecimalParses(n);
  }

  /** Skipping a leading count leaves what follows its blank. */
  lemma {:induction false} SkipCount(key: string, n: nat, post: string)
    requires key != [] && ' ' !in key
    ensures AfterKey(key + Decimal(n) + " " + post, key) == post
    ensures AfterKey(key + Decimal(n), key) == []
  {
    var word := key + Decimal(n);
    assert At(word + " " + post, key, 0) && At(word, key, 0);
    FindIs(word + " " + post, key, 0, 0);
    FindIs(word, key, 0, 0);
    FindCharIs(word + " " + post, ' ', 0, |word|);
    FindCharNone(word, ' ', 0);
    assert (word + " " + post)[|word| + 1..] == post;
  }

  /** One operation field can be read back exactly when its id holds no '=' and its counts fit. */
  ghost predicate OpFits(c: OpCount) { '=' !in c.operationId && c.ok < PARSE_LIMIT && c.fail < PARSE_LIMIT }

  lemma {:induction false} OpParses(c: OpCount)
    requires WordId(c.operationId)
    ensures ParseOp(OpText(c)) == if OpFits(c) then Some(c) else None
  {
    if '=' !in c.operationId {
      FindSeparator(c.operationId, '=', CountsText(c));
      FindSeparator(Decimal(c.ok), '/', Decimal(c.fail));
      DecimalParses(c.ok);
      DecimalParses(c.fail);
    } else {
      OpWithEqualsIsRefused(c);
    }
  }

  lemma {:induction false} EqualsIsNoNumber(s: string, i: nat)
    requires i < |s| && s[i] == '='
    ensures ParseNat(s) == None
  {
    assert !IsDigit(s[i]);
  }

  /** Wherever counts are cut, an '=' stays in one of the halves. */
  lemma {:induction false} CountsWithEquals(counts: string, i: nat, slash: nat)
    requires i < |counts| && counts[i] == '=' && slash < |counts| && counts[slash] == '/'
    ensures ParseNat(counts[..slash]) == None || ParseNat(counts[slash + 1..]) == None
  {
    if i < slash { EqualsIsNoNumber(counts[..slash], i); } else { EqualsIsNoNumber(counts[slash + 1..], i - slash - 1); }
  }

  lemma {:induction false} TokenWithTwoEquals(token: string, e: nat, n: nat)
    requires e < n < |token| && token[e] == token[n] == '='
    ensures ParseOp(token) == None
  {
    FindCharFound(token, '=', 0);
    var eq := Find(token, "=").value;
    var counts := token[eq + 1..];
    assert counts[n - eq - 1] == '=';
    FindCharFound(counts, '/', 0);
    if Find(counts, "/").Some? { CountsWithEquals(counts, n - eq - 1, Find(counts, "/").value); }
  }

  /** An '=' inside the id always ends up in one of the two counts. */
  lemma {:induction false} OpWithEqualsIsRefused(c: OpCount)
    requires '=' in c.operationId
    ensures ParseOp(OpText(c)) == None
  {
    var e :| 0 <= e < |c.operationId| && c.operationId[e] == '=';
    assert OpText(c)[e] == '=' && OpText(c)[|c.operationId|] == '=';
    TokenWithTwoEquals(OpText(c), e, |c.operationId|);
  }

  lemma {:induction false} OpTextHasNoBlank(c: OpCount)
    requires WordId(c.operationId)
    ensures ' ' !in OpText(c) && OpText(c) != []
  {
    assert ' ' !in CountsText(c);
  }

  function Texts(ops: seq<OpCount>): seq<string> {
    if ops == [] then [] else [OpText(ops[0])] + Texts(ops[1..])
  }

  lemma {:induction false} BlankCut(text: string, rest: string)
    ensures (" " + text + rest)[1..] == text + rest
    ensures rest != [] && rest[0] == ' ' ==> text + rest == text + " " + rest[1..]
  {
  }

  /** Without its leading blank, the text of several fields is the first field, a blank and the rest. */
  lemma {:induction false} OpsTextCut(ops: seq<OpCount>)
    requires ops != []
    ensures |ops| == 1 ==> OpsText(ops)[1..] == OpText(ops[0])
    ensures |ops| > 1 ==> OpsText(ops)[1..] == OpText(ops[0]) + " " + OpsText(ops[1..])[1..]
  {
    BlankCut(OpText(ops[0]), OpsText(ops[1..]));
  }

  lemma {:induction false} OpsSplit(ops: seq<OpCount>)
    requires IdsAreWords(ops) && ops != []
    ensures Split(OpsText(ops)[1..], ' ') == Texts(ops)
  {
    OpTextHasNoBlank(ops[0]);
    OpsTextCut(ops);
    if |ops| == 1 {
      SplitLast(OpText(ops[0]), ' ');
    } else {
      OpsSplit(ops[1..]);
      SplitCons(OpText(ops[0]), ' ', OpsText(ops[1..])[1..]);
    }
  }

  lemma {:induction false} TokensCons(op: OpCount, rest: seq<string>)
    requires WordId(op.operationId)
    ensures ParseTokens([OpText(op)] + rest)
         == if OpFits(op) then Prepend([op], ParseTokens(rest)) else None
  {
    OpParses(op);
    OpTextHasNoBlank(op);
    assert ([OpText(op)] + rest)[1..] == rest;
  }

  lemma {:induction false} OpsFitCons(op: OpCount, rest: seq<OpCount>)
    ensures OpsFit([op] + rest) <==> OpFits(op) && OpsFit(rest)
  {
    var ops := [op] + rest;
    assert ops[0] == op && ops[1..] == rest;
    assert forall i | 0 <= i < |rest| :: rest[i] == ops[i + 1];
  }

  lemma {:induction false} TextsParse(ops: seq<OpCount>)
    requires IdsAreWords(ops)
    ensures ParseTokens(Texts(ops)) == if OpsFit(ops) then Some(ops) else None
  {
    if ops != [] {
      var op, rest := ops[0], ops[1..];
      assert ops == [op] + rest;
      TextsParse(rest);
      TokensCons(op, Texts(rest));
      OpsFitCons(op, rest);
    }
  }

  /** Each of the four counts is read back from the printed fields, if the guard admits it. */
  lemma {:induction false} TotalParses(s: Summary)
    ensures ExtractCount(Fields(s), "total=") == if s.total < PARSE_LIMIT then Some(s.total) else None
  {
    CountParses("", "total=", s.total, " " + OkField(s), 0);
    assert Fields(s) == "" + "total=" + (Decimal(s.total) + (" " + OkField(s)));
  }

  function UpToOk(s: Summary): string { "total=" + Decimal(s.total) + " " }

  function UpToFail(s: Summary): string { UpToOk(s) + "ok=" + Decimal(s.ok) + " " }

  function UpToUnparsed(s: Summary): string { UpToFail(s) + "fail=" + Decimal(s.fail) + " " }

  lemma {:induction false} Regroup(p: string, a: string, b: string, c: string, d: string)
    ensures p + (a + (b + (c + d))) == p + a + b + c + d
  {
  }

  /** The printed fields, cut in front of each of the later three counts. */
  lemma {:induction false} FieldsCut(s: Summary)
    ensures Fields(s) == UpToOk(s) + OkField(s) == UpToFail(s) + FailField(s) == UpToUnparsed(s) + UnparsedField(s)
  {
    assert "" + Fields(s) == Fields(s) && "" + "total=" == "total=";
    Regroup("", "total=", Decimal(s.total), " ", OkField(s));
    Regroup(UpToOk(s), "ok=", Decimal(s.ok), " ", FailField(s));
    Regroup(UpToFail(s), "fail=", Decimal(s.fail), " ", UnparsedField(s));
  }

  lemma {:induction false} KeysAreForeign(s: Summary)
    ensures 'k' !in UpToOk(s) && 'f' !in UpToFail(s) && 'u' !in UpToUnparsed(s)
  {
    assert 'k' !in Decimal(s.total) && 'f' !in Decimal(s.total) && 'u' !in Decimal(s.total);
    assert 'f' !in Decimal(s.ok) && 'u' !in Decimal(s.ok) && 'u' !in Decimal(s.fail);
    assert 'f' !in UpToOk(s) && 'u' !in UpToOk(s) && 'u' !in UpToFail(s);
  }

  lemma {:induction false} OkParses(s: Summary)
    ensures ExtractCount(Fields(s), "ok=") == if s.ok < PARSE_LIMIT then Some(s.ok) else None
  {
    FieldsCut(s);
    KeysAreForeign(s);
    CountParses(UpToOk(s), "ok=", s.ok, " " + FailField(s), 1);
    Associate(UpToOk(s), "ok=", Decimal(s.ok) + (" " + FailField(s)));
  }

  lemma {:induction false} FailParses(s: Summary)
    ensures ExtractCount(Fields(s), "fail=") == if s.fail < PARSE_LIMIT then Some(s.fail) else None
  {
    FieldsCut(s);
    KeysAreForeign(s);
    CountParses(UpToFail(s), "fail=", s.fail, " " + UnparsedField(s), 0);
    Associate(UpToFail(s), "fail=", Decimal(s.fail) + (" " + UnparsedField(s)));
  }

  lemma {:induction false} UnparsedParses(s: Summary)
    ensures ExtractCount(Fields(s), "unparsed=") == if s.unparsed < PARSE_LIMIT then Some(s.unparsed) else None
  {
    FieldsCut(s);
    KeysAreForeign(s);
    CountParses(UpToUnparsed(s), "unparsed=", s.unparsed, OpsText(s.byOperation), 0);
    Associate(UpToUnparsed(s), "unparsed=", Decimal(s.unparsed) + OpsText(s.byOperation));
  }

  lemma {:induction false} SkipField(key: string, n: nat, post: string)
    requires key != [] && ' ' !in key
    ensures AfterKey(key + (Decimal(n) + (" " + post)), key) == post
    ensures AfterKey(key + (Decimal(n) + ""), key) == []
  {
    SkipCount(key, n, post);
    Associate(key, Decimal(n), " " + post);
    Associate(key + Decimal(n), " ", post);
    assert Decimal(n) + "" == Decimal(n);
  }

  lemma {:induction false} AfterUnparsed(s: Summary)
    ensures AfterKey(UnparsedField(s), "unparsed=") == if s.byOperation == [] then "" else OpsText(s.byOperation)[1..]
  {
    var ops := OpsText(s.byOperation);
    if s.byOperation == [] {
      SkipField("unparsed=", s.unparsed, "");
    } else {
      assert ops == " " + ops[1..];
      SkipField("unparsed=", s.unparsed, ops[1..]);
    }
  }

  lemma {:induction false} AfterFirstThree(s: Summary)
    ensures AfterKey(Fields(s), "total=") == OkField(s)
    ensures AfterKey(OkField(s), "ok=") == FailField(s)
    ensures AfterKey(FailField(s), "fail=") == UnparsedField(s)
  {
    SkipField("total=", s.total, OkField(s));
    SkipField("ok=", s.ok, FailField(s));
    SkipField("fail=", s.fail, UnparsedField(s));
  }

  /** Skipping the four counts leaves exactly the operation fields. */
  lemma {:induction false} OpsPartIs(s: Summary)
    ensures OpsPart(Fields(s)) == if s.byOperation == [] then "" else OpsText(s.byOperation)[1..]
  {
    AfterFirstThree(s);
    AfterUnparsed(s);
  }

  lemma {:induction false} CutAtMarker(range: string, fields: string)
    ensures var line := range + SUMMARY_MARK + fields;
            |range| + |SUMMARY_MARK| <= |line| && line[..|range|] == range && line[|range| + |SUMMARY_MARK|..] == fields
  {
  }

  /** Once its marker is found, a printed summary is read as its range and its fields are. */
  lemma {:induction false} ParsesByParts(s: Summary)
    requires IdsAreWords(s.byOperation) && Find(FormatSummary(s), SUMMARY_MARK) == Some(|Range(s)|)
    ensures var range := ParseRange(Range(s));
            ParseSummary(FormatSummary(s)) ==
              if range.Some? && CountsFit(s) then Some(s.(firstTimestamp := range.value.0, lastTimestamp := range.value.1)) else None
  {
    CutAtMarker(Range(s), Fields(s));
    FieldsParse(s);
  }

  /**
    Parsing inverts printing on every printable summary whose counts the overflow guard admits and
    whose operation ids hold no '=', and refuses the line of every other one.
   */
  lemma {:induction false} SummaryRoundTrip(s: Summary)
    requires Printable(s)
    ensures ParseSummary(FormatSummary(s)) == if CountsFit(s) then Some(s) else None
  {
    HeadParses(s);
    ParsesByParts(s);
  }

  /** A range that begins with its own separator: the stamp is a dot or begins with two. */
  predicate OpensWithDots(t: string) { t == "." || (|t| >= 2 && t[0] == t[1] == '.') }

  /** Where a printed range is cut when it is read, which need not be where it was put together. */
  lemma {:induction false} RangeIsCut(first: string, last: string)
    requires first != [] && last != []
    ensures ParseRange(first + ".." + last).None? <==> OpensWithDots(first)
    ensures '.' !in first ==> ParseRange(first + ".." + last) == Some((first, last))
  {
    var range := first + ".." + last;
    assert At(range, "..", |first|);
    assert At(range, "..", 0) <==> range[..2] == "..";
    assert range[0] == first[0] && range[1] == if |first| == 1 then '.' else first[1];
    if '.' !in first {
      forall j | 0 <= j < |first| ensures !At(range, "..", j) { AtHasChar(range, "..", j, 0); }
      FindIs(range, "..", 0, |first|);
      assert range[..|first|] == first && range[|first| + 2..] == last;
    }
  }

  /** Summaries whose stamps may be any text that hides no marker, as arbitrary audit lines may give them. */
  ghost predicate Loose(s: Summary) {
    && IdsAreWords(s.byOperation)
    && ((s.firstTimestamp == [] && s.lastTimestamp == []) || (LastIsClean(s.firstTimestamp) && LastIsClean(s.lastTimestamp)))
  }

  /** What is read back of such a summary, whatever becomes of its stamps. */
  ghost predicate SameCounts(a: Summary, b: Summary) {
    a == b.(firstTimestamp := a.firstTimestamp, lastTimestamp := a.lastTimestamp)
  }

  lemma {:induction false} LooseHidesNoMarker(t: string)
    requires HidesNoMarker(t)
    ensures forall i | 0 <= i < |t| :: !At(t, SUMMARY_MARK, i)
  {
    forall i | 0 <= i < |t| ensures !At(t, SUMMARY_MARK, i) {
      if i + |SUMMARY_MARK| <= |t| { AtPrefix(t, SUMMARY_MARK, SUMMARY_MARK, i); }
    }
  }

  lemma {:induction false} LooseRange(s: Summary)
    requires (s.firstTimestamp == [] && s.lastTimestamp == []) || (s.firstTimestamp != [] && s.lastTimestamp != [])
    ensures ParseRange(Range(s)).Some? <==> !OpensWithDots(s.firstTimestamp)
    ensures '.' !in s.firstTimestamp ==> ParseRange(Range(s)) == Some((s.firstTimestamp, s.lastTimestamp))
  {
    if s.firstTimestamp != [] { RangeIsCut(s.firstTimestamp, s.lastTimestamp); }
  }

  /** The counts of such a summary are read back exactly when they fit and its range does not open with dots. */
  lemma {:induction false} LooseRoundTrip(s: Summary)
    requires Loose(s)
    ensures var r := ParseSummary(FormatSummary(s));
            && (r.Some? <==> CountsFit(s) && !OpensWithDots(s.firstTimestamp))
            && (r.Some? ==> SameCounts(r.value, s))
            && (r.Some? && '.' !in s.firstTimestamp ==> r.value == s)
  {
    LooseHidesNoMarker(s.firstTimestamp);
    MarkerIsFound(s);
    ParsesByParts(s);
    LooseRange(s);
  }

  lemma {:induction false} FieldsParse(s: Summary)
    requires IdsAreWords(s.byOperation)
    ensures ExtractCount(Fields(s), "total=") == if s.total < PARSE_LIMIT then Some(s.total) else None
    ensures ExtractCount(Fields(s), "ok=") == if s.ok < PARSE_LIMIT then Some(s.ok) else None
    ensures ExtractCount(Fields(s), "fail=") == if s.fail < PARSE_LIMIT then Some(s.fail) else None
    ensures ExtractCount(Fields(s), "unparsed=") == if s.unparsed < PARSE_LIMIT then Some(s.unparsed) else None
    ensures ParseOps(OpsPart(Fields(s))) == if OpsFit(s.byOperation) then Some(s.byOperation) else None
  {
    TotalParses(s);
    OkParses(s);
    FailParses(s);
    UnparsedParses(s);
    OpsPartIs(s);
    if s.byOperation != [] {
      OpsSplit(s.byOperation);
      TextsParse(s.byOperation);
    }
  }

  // ---------- which lines are accepted ----------

  /** A number the parser takes. */
  predicate IsNumber(d: string) { d != "" && AllDigits(d) && Value(d) < 18446744073709551610 }

  /** The digits behind the first occurrence of the key are one. */
  predicate HasCount(fields: string, key: string) {
    Find(fields, key).Some? && IsNumber(DigitRun(fields, Find(fields, key).value + |key|))
  }

  /** No range at all, or two stamps around the first two dots. */
  predicate RangeIsFine(range: string) {
    range == "" || (Find(range, "..").Some? && 0 < Find(range, "..").value < |range| - 2)
  }

  /** `<id>=<number>/<number>` with an id that is not empty and holds no '='. */
  ghost predicate IsEntry(token: string) {
    exists id: string, a: string, b: string ::
      id != "" && '=' !in id && IsNumber(a) && IsNumber(b) && token == id + "=" + (a + "/" + b)
  }

  lemma {:induction false} EntryParses(id: string, a: string, b: string)
    requires id != "" && '=' !in id && IsNumber(a) && IsNumber(b)
    ensures ParseOp(id + "=" + (a + "/" + b)) == Some(OpCount(id, Value(a), Value(b)))
  {
    assert '/' !in a;
    FindSeparator(id, '=', a + "/" + b);
    FindSeparator(a, '/', b);
  }

  lemma {:induction false} AcceptedOpIsEntry(token: string)
    requires ParseOp(token).Some?
    ensures IsEntry(token)
  {
    var eq := Find(token, "=").value;
    CutAtFirst(token, '=');
    var id, counts := token[..eq], token[eq + 1..];
    var slash := Find(counts, "/").value;
    CutAtFirst(counts, '/');
    AcceptedCounts(token);
    EntryIs(id, counts[..slash], counts[slash + 1..]);
  }

  lemma {:induction false} EntryIs(id: string, a: string, b: string)
    requires id != "" && '=' !in id && IsNumber(a) && IsNumber(b)
    ensures IsEntry(id + "=" + (a + "/" + b))
  {
  }

  lemma {:induction false} AcceptedCounts(token: string)
    requires ParseOp(token).Some?
    ensures var eq := Find(token, "=").value;
            && 0 < eq < |token| && Find(token[eq + 1..], "/").Some?
            && var slash := Find(token[eq + 1..], "/").value;
            && slash < |token[eq + 1..]| && IsNumber(token[eq + 1..][..slash]) && IsNumber(token[eq + 1..][slash + 1..])
  {
  }

  lemma {:induction false} OpIsAcceptedIff(token: string)
    ensures ParseOp(token).Some? <==> IsEntry(token)
  {
    if ParseOp(token).Some? { AcceptedOpIsEntry(token); }
    if id: string, a: string, b: string :| id != "" && '=' !in id && IsNumber(a) && IsNumber(b) && token == id + "=" + (a + "/" + b) {
      EntryParses(id, a, b);
    }
  }

  lemma {:induction false} TokensAreAcceptedIff(tokens: seq<string>)
    ensures ParseTokens(tokens).Some? <==> forall t | t in tokens :: t == "" || IsEntry(t)
  {
    if tokens != [] {
      TokensAreAcceptedIff(tokens[1..]);
      OpIsAcceptedIff(tokens[0]);
      assert forall t :: t in tokens <==> t == tokens[0] || t in tokens[1..];
    }
  }

  /** The four counts, and behind them nothing but entries. */
  ghost predicate FieldsAreFine(fields: string) {
    && HasCount(fields, "total=") && HasCount(fields, "ok=") && HasCount(fields, "fail=") && HasCount(fields, "unparsed=")
    && forall t | t in Split(OpsPart(fields), ' ') :: t == "" || IsEntry(t)
  }

  /**
    Any line, whoever wrote it: it is accepted exactly when it holds the marker, in front of it nothing or two stamps, and behind it
    the four counts and entries. A count that is missing or too large refuses the line, and so does anything else.
   */
  lemma {:induction false} LineIsAcceptedIff(line: string)
    ensures ParseSummary(line).Some? <==> LineIsFine(line, Find(line, " [audit-summary] "))
  {
    PartsAreAcceptedIff(line, Find(line, SUMMARY_MARK));
    if Find(line, SUMMARY_MARK).Some? {
      RangeIsAcceptedIff(line[..Find(line, SUMMARY_MARK).value]);
      FieldsAreAcceptedIff(line[Find(line, SUMMARY_MARK).value + 17..]);
    }
  }

  ghost predicate LineIsFine(line: string, marker: Option<nat>) {
    marker.Some? && marker.value + 17 <= |line| && RangeIsFine(line[..marker.value]) && FieldsAreFine(line[marker.value + 17..])
  }

  predicate FieldsAccepted(fields: string) {
    && ExtractCount(fields, "total=").Some? && ExtractCount(fields, "ok=").Some?
    && ExtractCount(fields, "fail=").Some? && ExtractCount(fields, "unparsed=").Some? && ParseOps(OpsPart(fields)).Some?
  }

  lemma {:induction false} PartsAreAcceptedIff(line: string, marker: Option<nat>)
    requires marker == Find(line, SUMMARY_MARK)
    ensures marker.Some? ==> marker.value + 17 <= |line|
    ensures ParseSummary(line).Some? <==> marker.Some? && ParseRange(line[..marker.value]).Some? && FieldsAccepted(line[marker.value + 17..])
  {
  }

  lemma {:induction false} FieldsAreAcceptedIff(fields: string)
    ensures FieldsAccepted(fields) <==> FieldsAreFine(fields)
  {
    TokensAreAcceptedIff(Split(OpsPart(fields), ' '));
    CountIsThereIff(fields, "total=");
    CountIsThereIff(fields, "ok=");
    CountIsThereIff(fields, "fail=");
    CountIsThereIff(fields, "unparsed=");
  }

  lemma {:induction false} CountIsThereIff(fields: string, key: string)
    ensures ExtractCount(fields, key).Some? <==> HasCount(fields, key)
  {
  }

  lemma {:induction false} RangeIsAcceptedIff(range: string)
    ensures ParseRange(range).Some? <==> RangeIsFine(range)
  {
  }

  // ---------- what parsing yields ----------

  lemma {:induction false} TokensYieldPlainIds(tokens: seq<string>)
    requires forall t | t in tokens :: ' ' !in t && OneLine(t)
    requires ParseTokens(tokens).Some?
    ensures IdsArePlain(ParseTokens(tokens).value) && OpsFit(ParseTokens(tokens).value)
  {
    if tokens != [] {
      TokensYieldPlainIds(tokens[1..]);
      if tokens[0] != [] {
        FindCharFound(tokens[0], '=', 0);
        assert tokens[0] in tokens;
        OpsFitCons(ParseOp(tokens[0]).value, ParseTokens(tokens[1..]).value);
      }
    }
  }

  /** An occurrence within a window of a text is one of the text. */
  lemma {:induction false} AtWindow(line: string, start: nat, end: nat, p: string, j: nat)
    requires start <= end <= |line| && start + j + |p| <= end
    ensures At(line[start..end], p, j) <==> At(line, p, start + j)
  {
    var a, b := line[start..end][j..j + |p|], line[start + j..start + j + |p|];
    assert forall k | 0 <= k < |p| :: a[k] == line[start + j + k] && b[k] == line[start + j + k];
    assert a == b;
  }

  lemma {:induction false} ParsedFirstIsClean(line: string, at: nat, dots: nat)
    requires OneLine(line) && Find(line, SUMMARY_MARK) == Some(at) && Find(line[..at], "..") == Some(dots) && dots != 0
    ensures FirstIsClean(line[..dots])
  {
    var first := line[..dots];
    assert line[..at][..dots] == first;
    forall j | 0 <= j < |first| ensures !At(first + "..", "..", j) { FirstHidesNoDots(line[..at], dots, j); }
    forall j | 0 <= j < |first| ensures !At(first, SUMMARY_MARK, j) { FirstHidesNoMarker(line, at, dots, j); }
    assert forall c | c in first :: c in line;
  }

  lemma {:induction false} FirstHidesNoDots(range: string, dots: nat, j: nat)
    requires Find(range, "..") == Some(dots) && j < dots
    ensures !At(range[..dots] + "..", "..", j)
  {
    assert At(range, "..", dots);
    assert range[..dots] + ".." == range[0..dots + 2];
    AtWindow(range, 0, dots + 2, "..", j);
  }

  lemma {:induction false} FirstHidesNoMarker(line: string, at: nat, dots: nat, j: nat)
    requires Find(line, SUMMARY_MARK) == Some(at) && j < dots <= at <= |line|
    ensures !At(line[..dots], SUMMARY_MARK, j)
  {
    assert line[..dots] == line[0..dots];
    if j + |SUMMARY_MARK| <= dots { AtWindow(line, 0, dots, SUMMARY_MARK, j); }
  }

  lemma {:induction false} ParsedLastIsClean(line: string, at: nat, start: nat)
    requires OneLine(line) && Find(line, SUMMARY_MARK) == Some(at) && start < at
    ensures LastIsClean(line[start..at])
  {
    var last := line[start..at];
    assert At(line, SUMMARY_MARK, at);
    assert last + SUMMARY_MARK == line[start..at + |SUMMARY_MARK|];
    forall j | 0 <= j < |last| ensures !At(last + SUMMARY_MARK, SUMMARY_MARK, j) {
      AtWindow(line, start, at + |SUMMARY_MARK|, SUMMARY_MARK, j);
    }
    assert forall c | c in last :: c in line;
  }

  lemma {:induction false} ParsedRangeIsClean(line: string, at: nat)
    requires OneLine(line) && Find(line, SUMMARY_MARK) == Some(at) && ParseRange(line[..at]).Some? && at != 0
    ensures var (first, last) := ParseRange(line[..at]).value; FirstIsClean(first) && LastIsClean(last)
  {
    var range := line[..at];
    var dots := Find(range, "..").value;
    ParsedFirstIsClean(line, at, dots);
    ParsedLastIsClean(line, at, dots + 2);
    assert range[..dots] == line[..dots] && range[dots + 2..] == line[dots + 2..at];
  }

  lemma {:induction false} AfterKeyIsOneLine(rest: string, key: string)
    requires OneLine(rest)
    ensures OneLine(AfterKey(rest, key))
  {
  }

  lemma {:induction false} OpsPartIsOneLine(fields: string)
    requires OneLine(fields)
    ensures OneLine(OpsPart(fields))
  {
    var afterTotal := AfterKey(fields, "total=");
    AfterKeyIsOneLine(fields, "total=");
    AfterKeyIsOneLine(afterTotal, "ok=");
    AfterKeyIsOneLine(AfterKey(afterTotal, "ok="), "fail=");
    AfterKeyIsOneLine(AfterKey(AfterKey(afterTotal, "ok="), "fail="), "unparsed=");
  }

  lemma {:induction false} ParsedOpsArePlain(text: string)
    requires OneLine(text) && ParseOps(text).Some?
    ensures IdsArePlain(ParseOps(text).value) && OpsFit(ParseOps(text).value)
  {
    PiecesHoldNoSeparator(text, ' ');
    PiecesComeFromContent(text, ' ', '\n');
    TokensYieldPlainIds(Split(text, ' '));
  }

  lemma {:induction false} CountIsSmall(fields: string, key: string)
    ensures ExtractCount(fields, key).Some? ==> ExtractCount(fields, key).value < PARSE_LIMIT
  {
  }

  /** Where the parts of a parsed summary come from. */
  lemma {:induction false} ParsedParts(line: string)
    requires ParseSummary(line).Some?
    ensures var s := ParseSummary(line).value;
            && Find(line, SUMMARY_MARK).Some?
            && var at := Find(line, SUMMARY_MARK).value;
            && at + |SUMMARY_MARK| <= |line|
            && ParseRange(line[..at]) == Some((s.firstTimestamp, s.lastTimestamp))
            && ParseOps(OpsPart(line[at + |SUMMARY_MARK|..])) == Some(s.byOperation)
            && s.total < PARSE_LIMIT && s.ok < PARSE_LIMIT && s.fail < PARSE_LIMIT && s.unparsed < PARSE_LIMIT
  {
    var fields := line[Find(line, SUMMARY_MARK).value + |SUMMARY_MARK|..];
    CountIsSmall(fields, "total=");
    CountIsSmall(fields, "ok=");
    CountIsSmall(fields, "fail=");
    CountIsSmall(fields, "unparsed=");
  }

  lemma {:induction false} PlainIsWord(ops: seq<OpCount>)
    requires IdsArePlain(ops)
    ensures IdsAreWords(ops)
  {
  }

  lemma {:induction false} EmptyRangeIsEmpty()
    ensures ParseRange("") == Some(("", ""))
  {
  }

  /** Whatever line was accepted, the record it gave is printable again and its counts fit. */
  lemma {:induction false} ParsedIsPrintable(line: string)
    requires ParseSummary(line).Some? && OneLine(line)
    ensures Printable(ParseSummary(line).value) && CountsFit(ParseSummary(line).value)
  {
    ParsedParts(line);
    var s, at := ParseSummary(line).value, Find(line, SUMMARY_MARK).value;
    if at != 0 { ParsedRangeIsClean(line, at); } else { EmptyRangeIsEmpty(); }
    var fields := line[at + |SUMMARY_MARK|..];
    OpsPartIsOneLine(fields);
    ParsedOpsArePlain(OpsPart(fields));
    PlainIsWord(s.byOperation);
  }

  lemma {:induction false} OpsTextIsOneLine(ops: seq<OpCount>)
    requires IdsAreWords(ops)
    ensures OneLine(OpsText(ops))
  {
    if ops != [] {
      OpsTextIsOneLine(ops[1..]);
      assert ops[0] in ops && OneLine(CountsText(ops[0]));
      assert OneLine(OpText(ops[0]));
    }
  }

  /** Printing puts everything on one line. */
  lemma {:induction false} FormatIsOneLine(s: Summary)
    requires IdsAreWords(s.byOperation) && OneLine(s.firstTimestamp) && OneLine(s.lastTimestamp)
    ensures OneLine(FormatSummary(s))
  {
    OpsTextIsOneLine(s.byOperation);
    assert OneLine(UnparsedField(s));
    assert OneLine(FailField(s));
    assert OneLine(OkField(s));
    assert OneLine(Fields(s));
  }
}
