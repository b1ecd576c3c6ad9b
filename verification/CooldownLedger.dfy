/**
  The cooldown gate and the ledger file behind it (source/policy/safety_gates.cpp). The ledger is a
  text file: an envelope line, then one line per capability with the time of its last run.
 */
module CooldownLedger {
  import opened Text

  type Ledger = map<string, int>

  const ENVELOPE := "CppOptimizerCooldowns/1"
  const INT64_MAX: int := 0x7FFF_FFFF_FFFF_FFFF
  const INT64_MIN: int := -0x8000_0000_0000_0000

  predicate Int64(v: int) { INT64_MIN <= v <= INT64_MAX }

  /** Whether a capability may run now. A clock that went back keeps the gate shut. */
  function EvaluateCooldownGate(l: Ledger, id: string, now: int, cooldown: int): (open: bool)
    ensures open && id in l && l[id] > 0 ==> now >= l[id] && now - l[id] >= cooldown
    ensures !open ==> id in l && l[id] > 0 && (now < l[id] || now - l[id] < cooldown)
  {
    if id !in l || l[id] <= 0 then true
    else if now - l[id] < 0 then false
    else now - l[id] >= cooldown
  }

  /** A run enters the ledger unless a later one is there already. */
  function WithCooldownRun(l: Ledger, id: string, now: int): Ledger {
    if id == "" || now <= 0 then l
    else if id in l && l[id] > now then l
    else l[id := now]
  }

  // ---------- the text ----------

  function Number(v: int): string {
    if v < 0 then "-" + Decimal(-v) else Decimal(v)
  }

  predicate IsSpace(c: char) { c == ' ' || '\t' <= c <= '\r' }

  function SkipSpaces(s: string): string {
    if s != "" && IsSpace(s[0]) then SkipSpaces(s[1..]) else s
  }

  /** std::stoll: spaces, a sign and the longest run of digits; what follows is ignored. */
  function Stoll(s: string): (v: Option<int>)
    ensures v.Some? ==> Int64(v.value)
  {
    var t := SkipSpaces(s);
    var negative := t != "" && t[0] == '-';
    var digits := DigitRun(t, if t != "" && t[0] in "+-" then 1 else 0);
    if digits == "" then None
    else
      var v: int := if negative then -(Value(digits) as int) else Value(digits);
      if Int64(v) then Some(v) else None
  }

  function EntryLine(id: string, v: int): string { id + " " + Number(v) }

  function ParseEntry(line: string): Option<(string, int)> {
    match Find(line, " ")
    case None => None
    case Some(k) =>
      assert At(line, " ", k);
      match Stoll(line[k + 1..])
      case None => None
      case Some(v) => Some((line[..k], v))
  }

  /** The entries of some lines; of two for one capability the later counts. */
  function Entries(lines: seq<string>): Ledger {
    if lines == [] then map[]
    else
      var l := Entries(lines[..|lines| - 1]);
      match ParseEntry(lines[|lines| - 1])
      case None => l
      case Some((id, v)) => l[id := v]
  }

  /** A file without the envelope counts as an empty ledger. */
  function LedgerOf(content: string): Ledger {
    var lines := Lines(content);
    if lines == [] || lines[0] != ENVELOPE then map[] else Entries(lines[1..])
  }

  function LedgerIn(file: Option<string>): Ledger {
    if file.None? then map[] else LedgerOf(file.value)
  }

  /** The order of the map: byte by byte, a prefix first. */
  predicate Before(a: string, b: string) {
    if a == [] || b == [] then |a| < |b|
    else a[0] < b[0] || (a[0] == b[0] && Before(a[1..], b[1..]))
  }

  predicate Ascending(ids: seq<string>) { forall i, j | 0 <= i < j < |ids| :: Before(ids[i], ids[j]) }

  /** The capabilities of a ledger in the order of the map. */
  ghost predicate Lists(ids: seq<string>, l: Ledger) { Covers(ids, l) && Ascending(ids) }

  ghost predicate Covers(ids: seq<string>, l: Ledger) { forall id :: id in ids <==> id in l }

  function EntryLines(l: Ledger, ids: seq<string>): (lines: seq<string>)
    requires forall id | id in ids :: id in l
    ensures |lines| == |ids|
  {
    if ids == [] then []
    else EntryLines(l, ids[..|ids| - 1]) + [EntryLine(ids[|ids| - 1], l[ids[|ids| - 1]])]
  }

  function LedgerText(l: Ledger, ids: seq<string>): string
    requires forall id | id in ids :: id in l
  {
    Unlines([ENVELOPE] + EntryLines(l, ids))
  }

  /** The text is the ledger, its entries in ascending order. */
  ghost predicate Spells(content: string, l: Ledger) {
    exists ids: seq<string> :: Lists(ids, l) && content == LedgerText(l, ids)
  }

  predicate CleanId(id: string) { ' ' !in id && '\n' !in id }

  predicate Int64Values(l: Ledger) { forall id | id in l :: Int64(l[id]) }

  predicate CleanIds(l: Ledger) { forall id | id in l :: CleanId(id) }

  // ---------- the text is read back ----------

  /** A text that begins with a sign or a digit is read as the run of digits it begins with. */
  lemma {:induction false} StollReads(t: string, d: string)
    requires t != "" && !IsSpace(t[0]) && d != "" && AllDigits(d) && DigitRun(t, if t[0] in "+-" then 1 else 0) == d
    ensures var v: int := if t[0] == '-' then -(Value(d) as int) else Value(d);
            Stoll(t) == if Int64(v) then Some(v) else None
  {
    assert SkipSpaces(t) == t;
  }

  /** Reading a number stops where its digits end. */
  lemma {:induction false} DigitsParse(sign: string, d: string, post: string)
    requires (sign == "" || sign == "-") && d != "" && AllDigits(d) && (post == "" || !IsDigit(post[0]))
    ensures var t := sign + d + post; t[0] == (if sign == "" then d[0] else '-') && DigitRun(t, |sign|) == d
  {
    RunIs(sign + d + post, |sign|, d);
  }

  lemma {:induction false} NaturalParses(n: nat, post: string)
    requires post == "" || !IsDigit(post[0])
    ensures Stoll(Decimal(n) + post) == if Int64(n) then Some(n as int) else None
  {
    var d := Decimal(n);
    assert "" + d + post == d + post && IsDigit(d[0]);
    DigitsParse("", d, post);
    StollReads(d + post, d);
  }

  lemma {:induction false} NumberParses(v: int)
    ensures Stoll(Number(v)) == if Int64(v) then Some(v) else None
  {
    if v < 0 {
      var d := Decimal(-v);
      assert "-" + d + "" == "-" + d;
      DigitsParse("-", d, "");
      StollReads("-" + d, d);
    } else {
      NaturalParses(v, "");
      assert Decimal(v) + "" == Decimal(v);
    }
  }

  lemma {:induction false} EntryParses(id: string, v: int)
    requires ' ' !in id && Int64(v)
    ensures ParseEntry(EntryLine(id, v)) == Some((id, v))
  {
    FindSeparator(id, ' ', Number(v));
    NumberParses(v);
  }

  lemma {:induction false} NumberIsOneLine(v: int)
    ensures OneLine(Number(v))
  {
    var d := Decimal(if v < 0 then -v else v);
    forall c | c in d ensures c != '\n' {
      var k :| 0 <= k < |d| && d[k] == c;
      assert IsDigit(d[k]);
    }
  }

  lemma {:induction false} EntriesSnoc(lines: seq<string>, id: string, v: int)
    requires ' ' !in id && Int64(v)
    ensures Entries(lines + [EntryLine(id, v)]) == Entries(lines)[id := v]
  {
    EntryParses(id, v);
    var line := EntryLine(id, v);
    assert (lines + [line])[..|lines|] == lines && (lines + [line])[|lines|] == line;
  }

  lemma {:induction false} EntryLinesSnoc(l: Ledger, ids: seq<string>, id: string)
    requires (forall i | i in ids :: i in l) && id in l
    ensures EntryLines(l, ids + [id]) == EntryLines(l, ids) + [EntryLine(id, l[id])]
  {
    assert (ids + [id])[..|ids|] == ids;
  }

  ghost function Restrict(l: Ledger, ids: seq<string>): Ledger
    requires forall id | id in ids :: id in l
  {
    map id | id in ids :: l[id]
  }

  lemma {:induction false} RestrictSnoc(l: Ledger, ids: seq<string>, id: string)
    requires (forall i | i in ids :: i in l) && id in l
    ensures Restrict(l, ids + [id]) == Restrict(l, ids)[id := l[id]]
  {
  }

  ghost predicate ReadsBack(l: Ledger, ids: seq<string>) {
    (forall id | id in ids :: id in l) && Entries(EntryLines(l, ids)) == Restrict(l, ids)
  }

  lemma {:induction false} NoneReadsBack(l: Ledger)
    ensures ReadsBack(l, [])
  {
  }

  lemma {:induction false} OneMoreReadsBack(l: Ledger, ids: seq<string>, id: string)
    requires ReadsBack(l, ids) && id in l && CleanId(id) && Int64(l[id])
    ensures ReadsBack(l, ids + [id])
  {
    EntryLinesSnoc(l, ids, id);
    EntriesSnoc(EntryLines(l, ids), id, l[id]);
    RestrictSnoc(l, ids, id);
  }

  ghost predicate AllIn(ids: seq<string>, l: Ledger) { forall id | id in ids :: id in l }

  lemma {:induction false} AllReadBack(l: Ledger, ids: seq<string>)
    requires AllIn(ids, l) && CleanIds(l) && Int64Values(l)
    ensures ReadsBack(l, ids)
    decreases |ids|
  {
    if ids == [] {
      NoneReadsBack(l);
    } else {
      AllInBefore(ids, l);
      AllReadBack(l, ids[..|ids| - 1]);
      ReadBackWith(l, ids, ids[..|ids| - 1], ids[|ids| - 1]);
    }
  }

  lemma {:induction false} AllInBefore(ids: seq<string>, l: Ledger)
    requires AllIn(ids, l) && ids != []
    ensures AllIn(ids[..|ids| - 1], l) && ids[|ids| - 1] in l && ids == ids[..|ids| - 1] + [ids[|ids| - 1]]
  {
    assert ids[|ids| - 1] in ids;
  }

  lemma {:induction false} ReadBackWith(l: Ledger, ids: seq<string>, before: seq<string>, id: string)
    requires ids == before + [id] && ReadsBack(l, before) && id in l && CleanIds(l) && Int64Values(l)
    ensures ReadsBack(l, ids)
  {
    OneMoreReadsBack(l, before, id);
  }

  lemma {:induction false} EntryLinesAreLines(l: Ledger, ids: seq<string>)
    requires forall id | id in ids :: id in l && OneLine(id)
    ensures AllOneLine(EntryLines(l, ids))
    decreases |ids|
  {
    if ids != [] {
      var before, id := ids[..|ids| - 1], ids[|ids| - 1];
      assert ids == before + [id] && id in ids;
      EntryLinesAreLines(l, before);
      NumberIsOneLine(l[id]);
    }
  }

  lemma {:induction false} EntriesOfAll(l: Ledger, ids: seq<string>)
    requires Covers(ids, l) && CleanIds(l) && Int64Values(l)
    ensures Entries(EntryLines(l, ids)) == l
  {
    AllReadBack(l, ids);
    assert Restrict(l, ids) == l;
  }

  lemma {:induction false} LedgerOfLines(lines: seq<string>)
    requires AllOneLine(lines)
    ensures LedgerOf(Unlines([ENVELOPE] + lines)) == Entries(lines)
  {
    assert OneLine(ENVELOPE);
    LinesUnlines([ENVELOPE] + lines);
    assert ([ENVELOPE] + lines)[1..] == lines;
  }

  lemma {:induction false} CleanLedgerIsReadBack(l: Ledger, ids: seq<string>)
    requires Covers(ids, l) && CleanIds(l) && Int64Values(l)
    ensures LedgerOf(LedgerText(l, ids)) == l
  {
    EntryLinesAreLines(l, ids);
    LedgerOfLines(EntryLines(l, ids));
    EntriesOfAll(l, ids);
  }

  lemma {:induction false} EntryLineAt(l: Ledger, ids: seq<string>, i: nat)
    requires AllIn(ids, l) && i < |ids|
    ensures ids[i] in l && EntryLines(l, ids)[i] == EntryLine(ids[i], l[ids[i]])
    decreases |ids|
  {
    AllInBefore(ids, l);
    if i < |ids| - 1 { EntryLineAt(l, ids[..|ids| - 1], i); }
  }

  /** The file of a ledger with clean ids, line by line. */
  lemma {:induction false} LedgerLines(l: Ledger, ids: seq<string>)
    requires AllIn(ids, l) && CleanIds(l)
    ensures var lines := Lines(LedgerText(l, ids));
            && |lines| == |ids| + 1 && lines[0] == "CppOptimizerCooldowns/1"
            && forall i | 0 <= i < |ids| :: ids[i] in l && lines[i + 1] == ids[i] + " " + if l[ids[i]] < 0 then "-" + Decimal(-l[ids[i]]) else Decimal(l[ids[i]])
  {
    EntryLinesAreLines(l, ids);
    assert OneLine(ENVELOPE);
    LinesUnlines([ENVELOPE] + EntryLines(l, ids));
    forall i | 0 <= i < |ids|
      ensures ids[i] in l && EntryLines(l, ids)[i] == ids[i] + " " + if l[ids[i]] < 0 then "-" + Decimal(-l[ids[i]]) else Decimal(l[ids[i]])
    {
      EntryLineAt(l, ids, i);
    }
  }

  lemma {:induction false} ParsedEntryIsClean(line: string)
    requires OneLine(line) && ParseEntry(line).Some?
    ensures CleanId(ParseEntry(line).value.0) && Int64(ParseEntry(line).value.1)
  {
    FindCharFound(line, ' ', 0);
  }

  lemma {:induction false} EntriesAreClean(lines: seq<string>)
    requires AllOneLine(lines)
    ensures CleanIds(Entries(lines)) && Int64Values(Entries(lines))
    decreases |lines|
  {
    if lines != [] {
      EntriesAreClean(lines[..|lines| - 1]);
      var line := lines[|lines| - 1];
      if ParseEntry(line).Some? { ParsedEntryIsClean(line); }
    }
  }

  /** Whatever the file holds, what is read from it could have been written cleanly. */
  lemma {:induction false} ReadLedgerIsClean(content: string)
    ensures CleanIds(LedgerOf(content)) && Int64Values(LedgerOf(content))
  {
    LinesAreLines(content);
    if Lines(content) != [] { EntriesAreClean(Lines(content)[1..]); }
  }

  /** Written and read again, a ledger is the same exactly when no id holds a space or a line break. */
  lemma {:induction false} LedgerRoundTrip(l: Ledger, content: string)
    requires Spells(content, l) && Int64Values(l)
    ensures LedgerOf(content) == l <==> CleanIds(l)
  {
    var ids :| Lists(ids, l) && content == LedgerText(l, ids);
    if CleanIds(l) { CleanLedgerIsReadBack(l, ids); }
    ReadLedgerIsClean(content);
  }

  // ---------- the file ----------

  lemma {:induction false} UnlinesSnoc(lines: seq<string>, line: string)
    ensures Unlines(lines + [line]) == Unlines(lines) + (line + "\n")
    decreases |lines|
  {
    if lines != [] {
      UnlinesSnoc(lines[1..], line);
      assert (lines + [line])[1..] == lines[1..] + [line];
    }
  }

  lemma {:induction false} BeforeIsTotal(a: string, b: string)
    ensures a == b || Before(a, b) || Before(b, a)
  {
    if a != [] && b != [] && a[0] == b[0] {
      BeforeIsTotal(a[1..], b[1..]);
      assert a == [a[0]] + a[1..] && b == [b[0]] + b[1..];
    }
  }

  lemma {:induction false} BeforeIsTransitive(a: string, b: string, c: string)
    requires Before(a, b) && Before(b, c)
    ensures Before(a, c)
  {
    if a != [] && c != [] && a[0] == b[0] == c[0] { BeforeIsTransitive(a[1..], b[1..], c[1..]); }
  }

  /** The id at which the map's iteration stands when these are left. */
  ghost predicate IsFirst(id: string, ids: set<string>) { id in ids && forall x | x in ids && x != id :: Before(id, x) }

  lemma {:induction false} FirstExists(ids: set<string>) returns (id: string)
    requires ids != {}
    ensures IsFirst(id, ids)
    decreases ids
  {
    var some :| some in ids;
    var rest := ids - {some};
    id := some;
    if rest != {} {
      var other := FirstExists(rest);
      BeforeIsTotal(some, other);
      if Before(other, some) {
        id := other;
      } else {
        forall x | x in ids && x != some ensures Before(some, x) {
          assert x in rest;
          if x != other { BeforeIsTransitive(some, other, x); }
        }
      }
    }
    assert forall x | x in ids && x != some :: x in rest;
  }

  /** All ids but those still to be written are listed, in order, and come before those. */
  ghost predicate Listed(ids: seq<string>, l: Ledger, unlisted: set<string>) {
    && (forall id :: id in ids <==> id in l && id !in unlisted) && Ascending(ids)
    && forall i, x | 0 <= i < |ids| && x in unlisted :: Before(ids[i], x)
  }

  lemma {:induction false} EmptyText(l: Ledger)
    ensures LedgerText(l, []) == ENVELOPE + "\n"
  {
    UnlinesSnoc([], ENVELOPE);
    assert [ENVELOPE] + EntryLines(l, []) == [] + [ENVELOPE];
  }

  lemma {:induction false} ListOne(ids: seq<string>, l: Ledger, unlisted: set<string>, id: string)
    requires unlisted <= l.Keys && IsFirst(id, unlisted) && Listed(ids, l, unlisted)
    ensures Listed(ids + [id], l, unlisted - {id})
  {
    var more := ids + [id];
    forall i, j | 0 <= i < j < |more| ensures Before(more[i], more[j]) {
      if j == |ids| { assert Before(ids[i], id); }
    }
  }

  lemma {:induction false} TextOfOneMore(l: Ledger, ids: seq<string>, id: string)
    requires (forall i | i in ids :: i in l) && id in l
    ensures LedgerText(l, ids + [id]) == LedgerText(l, ids) + (EntryLine(id, l[id]) + "\n")
  {
    EntryLinesSnoc(l, ids, id);
    UnlinesSnoc([ENVELOPE] + EntryLines(l, ids), EntryLine(id, l[id]));
    Associate([ENVELOPE], EntryLines(l, ids), [EntryLine(id, l[id])]);
  }

  class LedgerStore {
    const path: string
    var file: Option<string>

    constructor (path: string)
      ensures this.path == path && file == None
    {
      this.path, file := path, None;
    }

    /** `readable` answers the directory, existence and open queries together. */
    method ReadCooldownLedger(readable: bool) returns (r: Option<Ledger>)
      ensures r == if path == "" || !readable then None else Some(LedgerIn(file))
    {
      if path == "" || !readable { return None; }
      if file == None { return Some(map[]); }
      var lines := Lines(file.value);
      var l: Ledger, k, first := map[], 0, true;
      while k < |lines|
        invariant k <= |lines| && first == (k == 0)
        invariant k > 0 ==> lines[0] == ENVELOPE && l == Entries(lines[1..][..k - 1])
        invariant k == 0 ==> l == map[]
      {
        var line := lines[k];
        k := k + 1;
        if first {
          first := false;
          if line != ENVELOPE { return Some(map[]); }
          continue;
        }
        assert lines[1..][..k - 1][..k - 2] == lines[1..][..k - 2];
        if line == "" { continue; }
        var entry := ParseEntry(line);
        if entry.Some? { l := l[entry.value.0 := entry.value.1]; }
      }
      assert lines != [] ==> lines[1..][..k - 1] == lines[1..];
      return Some(l);
    }

    /** The text goes to a temporary file that replaces the ledger at once, or not at all. */
    method WriteCooldownLedger(l: Ledger, writable: bool) returns (ok: bool)
      modifies this
      ensures ok == (path != "" && writable)
      ensures if ok then file.Some? && Spells(file.value, l) else file == old(file)
    {
      if path == "" || !writable { return false; }
      var unlisted, content := l.Keys, ENVELOPE + "\n";
      ghost var ids: seq<string> := [];
      EmptyText(l);
      while unlisted != {}
        invariant unlisted <= l.Keys && Listed(ids, l, unlisted)
        invariant content == LedgerText(l, ids)
        decreases unlisted
      {
        ghost var first := FirstExists(unlisted);
        var id :| id in unlisted && forall x | x in unlisted && x != id :: Before(id, x);
        ListOne(ids, l, unlisted, id);
        TextOfOneMore(l, ids, id);
        content := content + (EntryLine(id, l[id]) + "\n");
        ids, unlisted := ids + [id], unlisted - {id};
      }
      assert Lists(ids, l);
      file := Some(content);
      return true;
    }

    /** Read, add the run, write; a ledger that cannot be read is never overwritten. */
    method RecordCooldownRun(id: string, now: int, readable: bool, writable: bool) returns (ok: bool)
      modifies this
      ensures ok == (path != "" && id != "" && readable && writable)
      ensures if ok then file.Some? && Spells(file.value, WithCooldownRun(LedgerIn(old(file)), id, now)) else file == old(file)
    {
      if path == "" || id == "" { return false; }
      var l := ReadCooldownLedger(readable);
      if l.None? { return false; }
      ok := WriteCooldownLedger(WithCooldownRun(l.value, id, now), writable);
    }
  }

  // ---------- runs ----------

  /** One use of a capability: gate, action, record. The clock is read for the gate and for the record. */
  datatype Attempt = Attempt(id: string, cooldown: int, gateNow: int, gateReadable: bool, actionOk: bool,
                             recordNow: int, readable: bool, writable: bool)

  predicate Permitted(file: Option<string>, a: Attempt) {
    a.gateReadable && EvaluateCooldownGate(LedgerIn(file), a.id, a.gateNow, a.cooldown)
  }

  predicate Records(file: Option<string>, a: Attempt) {
    Permitted(file, a) && a.actionOk && a.id != "" && a.readable && a.writable
  }

  /** The effect of an attempt on the file. */
  ghost predicate Attempted(file: Option<string>, a: Attempt, file': Option<string>) {
    if Records(file, a) then file'.Some? && Spells(file'.value, WithCooldownRun(LedgerIn(file), a.id, a.recordNow))
    else file' == file
  }

  /** A run from any file, however it came about; the clock may jump either way. */
  ghost predicate IsRun(files: seq<Option<string>>, attempts: seq<Attempt>) {
    && |files| == |attempts| + 1
    && (forall i | 0 <= i < |attempts| :: Attempted(files[i], attempts[i], files[i + 1]))
    && forall i | 0 <= i < |attempts| :: CleanId(attempts[i].id) && Int64(attempts[i].recordNow)
  }

  lemma {:induction false} RecordIsReadBack(file: Option<string>, a: Attempt, file': Option<string>)
    requires Records(file, a) && Attempted(file, a, file') && CleanId(a.id) && Int64(a.recordNow)
    ensures LedgerIn(file') == WithCooldownRun(LedgerIn(file), a.id, a.recordNow)
  {
    if file.Some? { ReadLedgerIsClean(file.value); }
    LedgerRoundTrip(WithCooldownRun(LedgerIn(file), a.id, a.recordNow), file'.value);
  }

  /** Attempt `i` recorded a run of `id`. */
  predicate RecordedAt(files: seq<Option<string>>, attempts: seq<Attempt>, i: nat, id: string)
    requires |files| == |attempts| + 1 && i < |attempts|
  {
    attempts[i].id == id && attempts[i].recordNow > 0 && Records(files[i], attempts[i])
  }

  /** The readings recorded for `id` by the first `n` attempts. */
  function Readings(files: seq<Option<string>>, attempts: seq<Attempt>, n: nat, id: string): set<int>
    requires |files| == |attempts| + 1 && n <= |attempts|
  {
    if n == 0 then {}
    else Readings(files, attempts, n - 1, id) + if RecordedAt(files, attempts, n - 1, id) then {attempts[n - 1].recordNow} else {}
  }

  lemma {:induction false} ReadingsHold(files: seq<Option<string>>, attempts: seq<Attempt>, n: nat, id: string, i: nat)
    requires |files| == |attempts| + 1 && i < n <= |attempts| && RecordedAt(files, attempts, i, id)
    ensures attempts[i].recordNow in Readings(files, attempts, n, id)
    decreases n
  {
    if i < n - 1 { ReadingsHold(files, attempts, n - 1, id, i); }
  }

  lemma {:induction false} ReadingsCome(files: seq<Option<string>>, attempts: seq<Attempt>, n: nat, id: string, v: int) returns (i: nat)
    requires |files| == |attempts| + 1 && n <= |attempts| && v in Readings(files, attempts, n, id)
    ensures i < n && RecordedAt(files, attempts, i, id) && attempts[i].recordNow == v
    decreases n
  {
    if v in Readings(files, attempts, n - 1, id) { i := ReadingsCome(files, attempts, n - 1, id, v); } else { i := n - 1; }
  }

  /** The ledger holds the latest of some readings, or what it said at the start if that is later. */
  ghost predicate HoldsLatest(start: Ledger, readings: set<int>, l: Ledger, id: string) {
    && (id in start ==> id in l && start[id] <= l[id])
    && (forall v | v in readings :: id in l && v <= l[id])
    && (id in l ==> (id in start && start[id] == l[id]) || l[id] in readings)
  }

  lemma {:induction false} StepKeepsLatest(start: Ledger, readings: set<int>, l: Ledger, l': Ledger, id: string, a: Attempt, records: bool)
    requires HoldsLatest(start, readings, l, id) && (records ==> a.id != "")
    requires l' == if records then WithCooldownRun(l, a.id, a.recordNow) else l
    ensures HoldsLatest(start, readings + (if records && a.id == id && a.recordNow > 0 then {a.recordNow} else {}), l', id)
  {
  }

  lemma {:induction false} LedgerStep(files: seq<Option<string>>, attempts: seq<Attempt>, n: nat)
    requires IsRun(files, attempts) && n < |attempts|
    ensures LedgerIn(files[n + 1]) == if Records(files[n], attempts[n])
      then WithCooldownRun(LedgerIn(files[n]), attempts[n].id, attempts[n].recordNow) else LedgerIn(files[n])
  {
    assert Attempted(files[n], attempts[n], files[n + 1]);
    if Records(files[n], attempts[n]) { RecordIsReadBack(files[n], attempts[n], files[n + 1]); }
  }

  lemma {:induction false} RunHoldsLatest(files: seq<Option<string>>, attempts: seq<Attempt>, n: nat, id: string)
    requires IsRun(files, attempts) && n <= |attempts|
    ensures HoldsLatest(LedgerIn(files[0]), Readings(files, attempts, n, id), LedgerIn(files[n]), id)
    decreases n
  {
    if n > 0 {
      var m := n - 1;
      RunHoldsLatest(files, attempts, m, id);
      LedgerStep(files, attempts, m);
      StepKeepsLatest(LedgerIn(files[0]), Readings(files, attempts, m, id), LedgerIn(files[m]), LedgerIn(files[n]), id, attempts[m],
                      Records(files[m], attempts[m]));
      ReadingsStep(files, attempts, m, id);
    }
  }

  lemma {:induction false} ReadingsStep(files: seq<Option<string>>, attempts: seq<Attempt>, n: nat, id: string)
    requires |files| == |attempts| + 1 && n < |attempts|
    ensures var a := attempts[n];
            Readings(files, attempts, n + 1, id) == Readings(files, attempts, n, id)
              + if Records(files[n], a) && a.id == id && a.recordNow > 0 then {a.recordNow} else {}
  {
  }

  /** A permitted run comes a cooldown after every recorded run before it. */
  lemma {:induction false} PermittedRunsAreApart(files: seq<Option<string>>, attempts: seq<Attempt>, i: nat, j: nat)
    requires IsRun(files, attempts) && i < j < |attempts|
    requires RecordedAt(files, attempts, i, attempts[j].id) && Permitted(files[j], attempts[j])
    ensures attempts[j].gateNow >= attempts[i].recordNow && attempts[j].gateNow - attempts[i].recordNow >= attempts[j].cooldown
  {
    RunHoldsLatest(files, attempts, j, attempts[j].id);
    ReadingsHold(files, attempts, j, attempts[j].id, i);
  }

  /** The gate refuses no more than that: a refusal names a run on record that is too recent. */
  lemma {:induction false} RefusalHasACause(files: seq<Option<string>>, attempts: seq<Attempt>, j: nat)
    requires IsRun(files, attempts) && j < |attempts| && attempts[j].gateReadable && !Permitted(files[j], attempts[j])
    ensures var a, start := attempts[j], LedgerIn(files[0]);
            || (a.id in start && (a.gateNow < start[a.id] || a.gateNow - start[a.id] < a.cooldown))
            || exists i | 0 <= i < j :: RecordedAt(files, attempts, i, a.id)
                 && (a.gateNow < attempts[i].recordNow || a.gateNow - attempts[i].recordNow < a.cooldown)
  {
    var id, l := attempts[j].id, LedgerIn(files[j]);
    RunHoldsLatest(files, attempts, j, id);
    if l[id] in Readings(files, attempts, j, id) { var i := ReadingsCome(files, attempts, j, id, l[id]); }
  }

  /** A recorded run is forgotten at once exactly when its id cannot be read back. */
  lemma {:induction false} RecordedRunIsRememberedIff(file: Option<string>, id: string, recordNow: int, content: string, now: int, cooldown: int)
    requires id != "" && 0 < recordNow && Int64(recordNow) && recordNow <= now < recordNow + cooldown
    requires Spells(content, WithCooldownRun(LedgerIn(file), id, recordNow))
    ensures EvaluateCooldownGate(LedgerOf(content), id, now, cooldown) <==> !CleanId(id)
  {
    if file.Some? { ReadLedgerIsClean(file.value); }
    ReadLedgerIsClean(content);
    if CleanId(id) { LedgerRoundTrip(WithCooldownRun(LedgerIn(file), id, recordNow), content); }
  }

  // ---------- what an id with a space does to the others ----------

  lemma {:induction false} EntriesConcat(a: seq<string>, b: seq<string>)
    ensures Entries(a + b) == Entries(a) + Entries(b)
    decreases |b|
  {
    if b == [] {
      assert a + b == a;
    } else {
      var n := |b| - 1;
      assert (a + b)[..|a + b| - 1] == a + b[..n] && (a + b)[|a + b| - 1] == b[n];
      EntriesConcat(a, b[..n]);
    }
  }

  lemma {:induction false} EntriesOfOne(line: string)
    ensures Entries([line]) == match ParseEntry(line) case None => map[] case Some((key, v)) => map[key := v]
  {
    assert [line][..0] == [];
  }

  lemma {:induction false} EntryLinesConcatStep(l: Ledger, a: seq<string>, b: seq<string>, id: string)
    requires AllIn(a, l) && AllIn(b, l) && AllIn(a + b, l) && id in l && EntryLines(l, a + b) == EntryLines(l, a) + EntryLines(l, b)
    ensures AllIn(a + (b + [id]), l) && AllIn(b + [id], l) && EntryLines(l, a + (b + [id])) == EntryLines(l, a) + EntryLines(l, b + [id])
  {
    Associate(a, b, [id]);
    EntryLinesSnoc(l, a + b, id);
    EntryLinesSnoc(l, b, id);
    Associate(EntryLines(l, a), EntryLines(l, b), [EntryLine(id, l[id])]);
  }

  lemma {:induction false} AllInBoth(a: seq<string>, b: seq<string>, l: Ledger)
    requires AllIn(a, l) && AllIn(b, l)
    ensures AllIn(a + b, l)
  {
  }

  lemma {:induction false} EntryLinesConcat(l: Ledger, a: seq<string>, b: seq<string>)
    requires AllIn(a, l) && AllIn(b, l)
    ensures AllIn(a + b, l) && EntryLines(l, a + b) == EntryLines(l, a) + EntryLines(l, b)
    decreases |b|
  {
    if b == [] {
      assert a + b == a;
    } else {
      AllInBefore(b, l);
      AllInBoth(a, b[..|b| - 1], l);
      EntryLinesConcat(l, a, b[..|b| - 1]);
      EntryLinesConcatStep(l, a, b[..|b| - 1], b[|b| - 1]);
    }
  }

  lemma {:induction false} EntryLinesAgree(l: Ledger, m: Ledger, ids: seq<string>)
    requires AllIn(ids, l) && AllIn(ids, m) && forall id | id in ids :: l[id] == m[id]
    ensures EntryLines(l, ids) == EntryLines(m, ids)
    decreases |ids|
  {
    if ids != [] {
      AllInBefore(ids, l);
      AllInBefore(ids, m);
      EntryLinesAgree(l, m, ids[..|ids| - 1]);
      assert ids[|ids| - 1] in ids;
    }
  }

  lemma {:induction false} NotBeforeItself(a: string)
    ensures !Before(a, a)
  {
    if a != [] { NotBeforeItself(a[1..]); }
  }

  lemma {:induction false} PrefixIsBefore(a: string, k: nat)
    requires k < |a|
    ensures Before(a[..k], a)
    decreases k
  {
    if k > 0 {
      assert a[..k][0] == a[0] && a[..k][1..] == a[1..][..k - 1];
      PrefixIsBefore(a[1..], k - 1);
    }
  }

  /** The key under which an id with a space is read back is listed before it. */
  lemma {:induction false} UncleanKeyIsBefore(id: string, v: int)
    requires ' ' in id && ParseEntry(EntryLine(id, v)).Some?
    ensures Before(ParseEntry(EntryLine(id, v)).value.0, id)
  {
    var line := EntryLine(id, v);
    FindCharFound(line, ' ', 0);
    var k := Find(line, " ").value;
    var e :| 0 <= e < |id| && id[e] == ' ';
    assert line[e] == ' ' && k <= e;
    assert line[..k] == id[..k];
    PrefixIsBefore(id, k);
  }

  /** The ids listed before and after one of them. */
  lemma {:induction false} SplitList(ids: seq<string>, id: string) returns (a: seq<string>, b: seq<string>)
    requires Ascending(ids) && id in ids
    ensures ids == a + [id] + b && (forall x | x in a :: Before(x, id)) && (forall x | x in b :: Before(id, x))
  {
    var k :| 0 <= k < |ids| && ids[k] == id;
    a, b := ids[..k], ids[k + 1..];
    forall x | x in a ensures Before(x, id) { var i :| 0 <= i < k && ids[i] == x; }
    forall x | x in b ensures Before(id, x) { var i :| 0 <= i < |b| && b[i] == x; assert ids[k + 1 + i] == x; }
  }

  /** The lists around the odd id are lists of the clean ledger, and cover it. */
  lemma {:induction false} CleanParts(l: Ledger, id: string, now: int, ids: seq<string>, a: seq<string>, b: seq<string>)
    requires id !in l && Covers(ids, l[id := now]) && ids == a + [id] + b
    requires (forall x | x in a :: Before(x, id)) && (forall x | x in b :: Before(id, x))
    ensures AllIn(a, l) && AllIn(b, l) && forall x | x in l :: x in a || x in b
  {
    NotBeforeItself(id);
    forall x | x in a + b ensures x in l {
      assert x in ids;
      assert x != id;
    }
    forall x | x in l ensures x in a || x in b { assert x in ids; }
  }

  lemma {:induction false} MergeParts(l: Ledger, a: seq<string>, b: seq<string>, odd: Ledger)
    requires AllIn(a, l) && AllIn(b, l) && (forall x | x in l :: x in a || x in b) && forall x | x in odd :: x !in b
    ensures Restrict(l, a) + odd + Restrict(l, b) == l + odd
  {
  }

  lemma {:induction false} OddTextReads(l: Ledger, id: string, now: int, ids: seq<string>)
    requires CleanIds(l) && Int64Values(l) && ' ' in id && OneLine(id) && id !in l && Lists(ids, l[id := now])
    ensures LedgerOf(LedgerText(l[id := now], ids)) == l + Entries([EntryLine(id, now)])
  {
    var m := l[id := now];
    var a, b := SplitList(ids, id);
    CleanParts(l, id, now, ids, a, b);
    OddLines(l, id, now, a, b);
    OddEntries(l, id, now, a, b);
    forall x | x in ids ensures x in m && OneLine(x) { assert x != id ==> CleanId(x); }
    EntryLinesAreLines(m, ids);
    LedgerOfLines(EntryLines(m, ids));
  }

  /**
    Recording a capability whose id holds a space leaves the ledger on disk as it was, or overwrites the entry of
    another capability: the one named by the text before the space, whenever a number follows it.
   */
  lemma {:induction false} UncleanRecordReads(l: Ledger, id: string, now: int, content: string)
    requires CleanIds(l) && Int64Values(l) && ' ' in id && OneLine(id) && Spells(content, l[id := now])
    ensures LedgerOf(content) == match ParseEntry(EntryLine(id, now)) case None => l case Some((key, v)) => l[key := v]
  {
    assert !CleanId(id) && (id in l ==> CleanId(id));
    var ids :| Lists(ids, l[id := now]) && content == LedgerText(l[id := now], ids);
    OddTextReads(l, id, now, ids);
    MergeOne(l, EntryLine(id, now));
  }

  lemma {:induction false} OddLines(l: Ledger, id: string, now: int, a: seq<string>, b: seq<string>)
    requires id !in l && AllIn(a, l) && AllIn(b, l)
    ensures var m := l[id := now];
            AllIn(a + [id] + b, m) && EntryLines(m, a + [id] + b) == EntryLines(l, a) + [EntryLine(id, now)] + EntryLines(l, b)
  {
    var m := l[id := now];
    EntryLinesSnoc(m, a, id);
    assert AllIn(a + [id], m) && AllIn(b, m);
    EntryLinesConcat(m, a + [id], b);
    EntryLinesAgree(l, m, a);
    EntryLinesAgree(l, m, b);
  }

  lemma {:induction false} EntriesOfThree(a: seq<string>, line: string, b: seq<string>)
    ensures Entries(a + [line] + b) == Entries(a) + Entries([line]) + Entries(b)
  {
    EntriesConcat(a, [line]);
    EntriesConcat(a + [line], b);
  }

  lemma {:induction false} OddEntries(l: Ledger, id: string, now: int, a: seq<string>, b: seq<string>)
    requires CleanIds(l) && Int64Values(l) && ' ' in id && id !in l && AllIn(a, l) && AllIn(b, l)
    requires (forall x | x in l :: x in a || x in b) && forall x | x in b :: Before(id, x)
    ensures Entries(EntryLines(l, a) + [EntryLine(id, now)] + EntryLines(l, b)) == l + Entries([EntryLine(id, now)])
  {
    var line := EntryLine(id, now);
    EntriesOfThree(EntryLines(l, a), line, EntryLines(l, b));
    AllReadBack(l, a);
    AllReadBack(l, b);
    EntriesOfOne(line);
    OddKeyIsNotAfter(id, now, b);
    MergeParts(l, a, b, Entries([line]));
  }

  lemma {:induction false} MergeOne(l: Ledger, line: string)
    ensures l + Entries([line]) == match ParseEntry(line) case None => l case Some((key, v)) => l[key := v]
  {
    EntriesOfOne(line);
  }

  lemma {:induction false} OddKeyIsNotAfter(id: string, now: int, b: seq<string>)
    requires ' ' in id && forall x | x in b :: Before(id, x)
    ensures ParseEntry(EntryLine(id, now)).Some? ==> ParseEntry(EntryLine(id, now)).value.0 !in b
  {
    if ParseEntry(EntryLine(id, now)).Some? {
      var key := ParseEntry(EntryLine(id, now)).value.0;
      UncleanKeyIsBefore(id, now);
      if key in b {
        BeforeIsTransitive(key, id, key);
        NotBeforeItself(key);
      }
    }
  }

  /** The case happens: "<capability> <number>" is read back as that capability with that number. */
  lemma {:induction false} SpacedNumberIsRead(key: string, n: nat, now: int)
    requires ' ' !in key && Int64(n)
    ensures ParseEntry(EntryLine(key + " " + Decimal(n), now)) == Some((key, n as int))
  {
    var rest := Decimal(n) + (" " + Number(now));
    NaturalParses(n, " " + Number(now));
    FindSeparator(key, ' ', rest);
    Associate(key + " ", Decimal(n), " " + Number(now));
    Associate(key + " " + Decimal(n), " ", Number(now));
  }
}
