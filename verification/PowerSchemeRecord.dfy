/**
  Power scheme GUIDs and the record that makes a switch reversible (source/power/power_scheme.cpp):
  one normal form for GUID text, and a strict text form of the record that reads back as written.
 */
module PowerSchemeRecord {
  import opened Text

  // ---------- GUID text ----------

  predicate IsSeparatorPlace(i: nat) { i == 8 || i == 13 || i == 18 || i == 23 }

  predicate IsUpperHex(c: char) { '0' <= c <= '9' || 'A' <= c <= 'F' }

  /** The normal form: 8-4-4-4-12 upper-case hexadecimal digits. */
  predicate IsGuid(s: string) {
    |s| == 36 && forall i | 0 <= i < 36 :: if IsSeparatorPlace(i) then s[i] == '-' else IsUpperHex(s[i])
  }

  predicate IsSkipped(c: char) { c == '{' || c == '}' || c == ' ' || c == '\t' }

  function Upper(c: char): char { if 'a' <= c <= 'z' then (c as int - 32) as char else c }

  function Cleaned(text: string): string {
    if text == [] then []
    else Cleaned(text[..|text| - 1]) + if IsSkipped(text[|text| - 1]) then [] else [Upper(text[|text| - 1])]
  }

  function Normalize(text: string): (r: Option<string>)
    ensures r.Some? ==> IsGuid(r.value)
  {
    if IsGuid(Cleaned(text)) then Some(Cleaned(text)) else None
  }

  method NormalizeSchemeGuid(text: string) returns (r: Option<string>)
    ensures r == Normalize(text)
  {
    var cleaned := "";
    for i := 0 to |text|
      invariant cleaned == Cleaned(text[..i])
    {
      assert text[..i + 1][..i] == text[..i];
      if IsSkipped(text[i]) { continue; }
      cleaned := cleaned + [Upper(text[i])];
    }
    assert text[..|text|] == text;
    if |cleaned| != 36 { return None; }
    for i := 0 to |cleaned|
      invariant forall k | 0 <= k < i :: if IsSeparatorPlace(k) then cleaned[k] == '-' else IsUpperHex(cleaned[k])
    {
      if IsSeparatorPlace(i) {
        if cleaned[i] != '-' { return None; }
        continue;
      }
      if !IsUpperHex(cleaned[i]) { return None; }
    }
    return Some(cleaned);
  }

  lemma {:induction false} CleanedIsUnchanged(text: string)
    requires forall i | 0 <= i < |text| :: text[i] == '-' || IsUpperHex(text[i])
    ensures Cleaned(text) == text
  {
    if text != [] {
      CleanedIsUnchanged(text[..|text| - 1]);
      assert text == text[..|text| - 1] + [text[|text| - 1]];
    }
  }

  /** Normalizing is idempotent: a normal form normalizes to itself, and nothing else comes out. */
  lemma {:induction false} GuidIsNormal(g: string)
    requires IsGuid(g)
    ensures Normalize(g) == Some(g)
  {
    CleanedIsUnchanged(g);
  }

  lemma {:induction false} CleanedConcat(a: string, b: string)
    ensures Cleaned(a + b) == Cleaned(a) + Cleaned(b)
    decreases |b|
  {
    if b == [] {
      assert a + b == a;
    } else {
      CleanedConcat(a, b[..|b| - 1]);
      assert (a + b)[..|a + b| - 1] == a + b[..|b| - 1];
    }
  }

  /** Braces, blanks and tabs are skipped wherever they stand, small letters become capital, and the rest stays. */
  lemma {:induction false} CleanedCharacter(a: string, c: char, b: string)
    ensures Cleaned(a + [c] + b) ==
      Cleaned(a) + (if c in {'{', '}', ' ', '\t'} then "" else if 'a' <= c <= 'z' then [(c as int - 32) as char] else [c]) + Cleaned(b)
  {
    CleanedConcat(a + [c], b);
    CleanedConcat(a, [c]);
    assert [c][..0] == [];
  }

  /** A text denotes a GUID exactly when what is left of it has the form 8-4-4-4-12. */
  lemma {:induction false} NormalizeIff(text: string, g: string)
    ensures Normalize(text) == Some(g) <==>
      && g == Cleaned(text) && |g| == 36
      && (forall i | 0 <= i < 36 :: if i in {8, 13, 18, 23} then g[i] == '-' else '0' <= g[i] <= '9' || 'A' <= g[i] <= 'F')
  {
    assert forall i | 0 <= i < |g| :: i in {8, 13, 18, 23} <==> IsSeparatorPlace(i);
  }

  // ---------- the record ----------

  datatype SaveState = Pending | Applied | Restored

  datatype Record = Record(saved: string, target: Option<string>, state: SaveState)

  const ENVELOPE := "CppOptimizerPowerSchemeSave/1"

  predicate RecordIsValid(r: Record) { IsGuid(r.saved) && (r.target.Some? ==> IsGuid(r.target.value)) }

  function StateName(s: SaveState): string {
    match s case Pending => "pending" case Applied => "applied" case Restored => "restored"
  }

  function ParseState(text: string): (r: Option<SaveState>)
    ensures forall s :: r == Some(s) <==> text == StateName(s)
  {
    if text == "pending" then Some(Pending) else if text == "applied" then Some(Applied)
    else if text == "restored" then Some(Restored) else None
  }

  function RecordText(r: Record): string {
    ENVELOPE + "\n" + ("state=" + StateName(r.state) + "\n" + ("saved=" + r.saved + "\n"
      + (if r.target.Some? then "target=" + r.target.value + "\n" + "" else "")))
  }

  /** A trailing carriage return does not belong to the line. */
  function Trimmed(line: string): string {
    if line != [] && line[|line| - 1] == '\r' then line[..|line| - 1] else line
  }

  /** What has been read so far; `ok` turns false on the first line that cannot be trusted. */
  datatype Reading = Reading(ok: bool, envelope: bool, state: Option<SaveState>, saved: Option<string>, target: Option<string>)

  const UNREAD := Reading(true, false, None, None, None)

  function ReadLine(p: Reading, raw: string): Reading {
    var line := Trimmed(raw);
    if !p.ok then p
    else if !p.envelope then (if line == ENVELOPE then p.(envelope := true) else p.(ok := false))
    else if "state=" <= line then
      (match ParseState(line[6..]) case None => p.(ok := false) case Some(s) => p.(state := Some(s)))
    else if "saved=" <= line then
      (match Normalize(line[6..]) case None => p.(ok := false) case Some(g) => p.(saved := Some(g)))
    else if "target=" <= line then
      (match Normalize(line[7..]) case None => p.(ok := false) case Some(g) => p.(target := Some(g)))
    else p
  }

  function ReadLines(p: Reading, lines: seq<string>): Reading
    decreases |lines|
  {
    if lines == [] then p else ReadLines(ReadLine(p, lines[0]), lines[1..])
  }

  function Conclude(p: Reading): Option<Record> {
    if p.ok && p.envelope && p.state.Some? && p.saved.Some? then Some(Record(p.saved.value, p.target, p.state.value)) else None
  }

  function ParseRecord(content: string): Option<Record> { Conclude(ReadLines(UNREAD, Pieces(content, '\n'))) }

  lemma {:induction false} BadStaysBad(p: Reading, lines: seq<string>)
    requires !p.ok
    ensures !ReadLines(p, lines).ok
    decreases |lines|
  {
    if lines != [] { BadStaysBad(ReadLine(p, lines[0]), lines[1..]); }
  }

  lemma {:induction false} ReadNext(p: Reading, rest: string)
    ensures match Find(rest, "\n")
            case None => ReadLines(p, Pieces(rest, '\n')) == ReadLine(p, rest)
            case Some(k) => ReadLines(p, Pieces(rest, '\n')) == ReadLines(ReadLine(p, rest[..k]), Pieces(rest[k + 1..], '\n'))
  {
    if Find(rest, "\n").None? {
      assert Pieces(rest, '\n') == [rest];
      assert [rest][1..] == [];
    } else {
      var k := Find(rest, "\n").value;
      assert Pieces(rest, '\n')[1..] == Pieces(rest[k + 1..], '\n');
    }
  }

  /** The scanning loop: cut at newlines by position, and stop at the first line that cannot be trusted. */
  method ParseSavedSchemeRecord(content: string) returns (r: Option<Record>)
    ensures r == ParseRecord(content)
  {
    ghost var goal := ReadLines(UNREAD, Pieces(content, '\n'));
    var p, rest := UNREAD, content;
    while true
      invariant p.ok && ReadLines(p, Pieces(rest, '\n')) == goal
      decreases |rest|
    {
      ReadNext(p, rest);
      var end := Find(rest, "\n");
      p := ReadLine(p, if end.Some? then rest[..end.value] else rest);
      if !p.ok {
        if end.Some? { BadStaysBad(p, Pieces(rest[end.value + 1..], '\n')); }
        return None;
      }
      if end.None? { break; }
      rest := rest[end.value + 1..];
    }
    return Conclude(p);
  }

  lemma {:induction false} GuidHasNoNewline(g: string)
    requires IsGuid(g)
    ensures '\n' !in g && g[|g| - 1] != '\r'
  {
    assert forall i | 0 <= i < |g| :: g[i] == '-' || IsUpperHex(g[i]);
  }

  lemma {:induction false} StateLine(p: Reading, s: SaveState)
    requires p.ok && p.envelope
    ensures '\n' !in "state=" + StateName(s) && ReadLine(p, "state=" + StateName(s)) == p.(state := Some(s))
  {
    var line := "state=" + StateName(s);
    assert line[6..] == StateName(s);
    assert line[|line| - 1] == 'g' || line[|line| - 1] == 'd';
  }

  lemma {:induction false} SavedLine(p: Reading, g: string)
    requires p.ok && p.envelope && IsGuid(g)
    ensures '\n' !in "saved=" + g && ReadLine(p, "saved=" + g) == p.(saved := Some(g))
  {
    var line := "saved=" + g;
    GuidHasNoNewline(g);
    GuidIsNormal(g);
    assert line[6..] == g && line[0] == 's' && line[1] == 'a' && line[|line| - 1] == g[|g| - 1];
  }

  lemma {:induction false} TargetLine(p: Reading, g: string)
    requires p.ok && p.envelope && IsGuid(g)
    ensures '\n' !in "target=" + g && ReadLine(p, "target=" + g) == p.(target := Some(g))
  {
    var line := "target=" + g;
    GuidHasNoNewline(g);
    GuidIsNormal(g);
    assert line[7..] == g && line[0] == 't' && line[|line| - 1] == g[|g| - 1];
  }

  lemma {:induction false} EnvelopeLine()
    ensures '\n' !in ENVELOPE && ReadLine(UNREAD, ENVELOPE) == UNREAD.(envelope := true)
  {
  }

  lemma {:induction false} ReadCons(p: Reading, line: string, rest: string)
    requires '\n' !in line
    ensures ReadLines(p, Pieces(line + "\n" + rest, '\n')) == ReadLines(ReadLine(p, line), Pieces(rest, '\n'))
  {
    PiecesCons(line, '\n', rest);
  }

  lemma {:induction false} ReadEnd(p: Reading)
    requires p.ok && p.envelope
    ensures ReadLines(p, Pieces("", '\n')) == p
  {
    PiecesLast("", '\n');
  }

  /** A written record reads back as itself. */
  lemma {:induction false} RecordRoundTrip(r: Record)
    requires RecordIsValid(r)
    ensures ParseRecord(RecordText(r)) == Some(r)
  {
    var last := if r.target.Some? then "target=" + r.target.value + "\n" + "" else "";
    var saved := "saved=" + r.saved + "\n" + last;
    var state := "state=" + StateName(r.state) + "\n" + saved;
    var p0 := UNREAD.(envelope := true);
    var p1 := p0.(state := Some(r.state));
    var p2 := p1.(saved := Some(r.saved));
    EnvelopeLine();
    ReadCons(UNREAD, ENVELOPE, state);
    StateLine(p0, r.state);
    ReadCons(p0, "state=" + StateName(r.state), saved);
    SavedLine(p1, r.saved);
    ReadCons(p1, "saved=" + r.saved, last);
    if r.target.Some? {
      TargetLine(p2, r.target.value);
      ReadCons(p2, "target=" + r.target.value, "");
      ReadEnd(p2.(target := r.target));
    } else {
      ReadEnd(p2);
    }
  }

  lemma {:induction false} RecordIsOneLineEach(r: Record)
    requires RecordIsValid(r)
    ensures OneLine(ENVELOPE) && OneLine("state=" + StateName(r.state)) && OneLine("saved=" + r.saved)
    ensures r.target.Some? ==> OneLine("target=" + r.target.value)
  {
    GuidHasNoNewline(r.saved);
    if r.target.Some? { GuidHasNoNewline(r.target.value); }
  }

  lemma {:induction false} UnlinesCons(line: string, rest: seq<string>)
    ensures Unlines([line] + rest) == line + "\n" + Unlines(rest)
  {
    assert ([line] + rest)[1..] == rest;
  }

  /** The file of a record, line by line. */
  lemma {:induction false} RecordLines(r: Record)
    requires RecordIsValid(r)
    ensures Lines(RecordText(r)) ==
      ["CppOptimizerPowerSchemeSave/1", "state=" + (match r.state case Pending => "pending" case Applied => "applied" case Restored => "restored"),
       "saved=" + r.saved] + if r.target.Some? then ["target=" + r.target.value] else []
  {
    var last := if r.target.Some? then ["target=" + r.target.value] else [];
    var saved := ["saved=" + r.saved] + last;
    var state := ["state=" + StateName(r.state)] + saved;
    var lines := [ENVELOPE] + state;
    UnlinesCons(ENVELOPE, state);
    UnlinesCons("state=" + StateName(r.state), saved);
    UnlinesCons("saved=" + r.saved, last);
    if r.target.Some? {
      UnlinesCons("target=" + r.target.value, []);
      assert ["target=" + r.target.value] + [] == last;
    }
    RecordIsOneLineEach(r);
    LinesUnlines(lines);
  }

  /** A line that says something says it well. */
  predicate LineIsGood(line: string) {
    && ("state=" <= line ==> line[6..] in {"pending", "applied", "restored"})
    && ("saved=" <= line ==> Normalize(line[6..]).Some?)
    && ("target=" <= line ==> Normalize(line[7..]).Some?)
  }

  lemma {:induction false} ReadLineSays(p: Reading, raw: string)
    requires p.ok && p.envelope
    ensures var q, line := ReadLine(p, raw), Trimmed(raw);
            && (q.ok <==> LineIsGood(line)) && q.envelope
            && (q.ok ==> (q.state.Some? <==> p.state.Some? || "state=" <= line) && (q.saved.Some? <==> p.saved.Some? || "saved=" <= line))
  {
    KeysDiffer(Trimmed(raw));
  }

  lemma {:induction false} KeysDiffer(line: string)
    ensures !("state=" <= line && "saved=" <= line) && !("state=" <= line && "target=" <= line) && !("saved=" <= line && "target=" <= line)
  {
    if "state=" <= line { assert line[1] == "state="[1]; }
    if "saved=" <= line { assert line[1] == "saved="[1]; }
    if "target=" <= line { assert line[1] == "target="[1] && line[0] == "target="[0]; }
  }

  /** A carriage return at the end of a line does not count. */
  lemma {:induction false} CarriageReturnIsIgnored(p: Reading, line: string)
    requires line == "" || line[|line| - 1] != '\r'
    ensures ReadLine(p, line + "\r") == ReadLine(p, line)
  {
    assert (line + "\r")[..|line|] == line;
  }

  lemma {:induction false} ReadLinesSay(p: Reading, lines: seq<string>)
    requires p.ok && p.envelope
    ensures var q := ReadLines(p, lines);
            && (q.ok <==> forall l | l in lines :: LineIsGood(Trimmed(l)))
            && (q.ok ==> q.envelope && (q.state.Some? <==> p.state.Some? || exists l :: l in lines && "state=" <= Trimmed(l))
                         && (q.saved.Some? <==> p.saved.Some? || exists l :: l in lines && "saved=" <= Trimmed(l)))
    decreases |lines|
  {
    if lines != [] {
      var next := ReadLine(p, lines[0]);
      ReadLineSays(p, lines[0]);
      assert forall l :: l in lines <==> l == lines[0] || l in lines[1..];
      if next.ok { ReadLinesSay(next, lines[1..]); } else { BadStaysBad(next, lines[1..]); }
    }
  }

  /**
    Any content, not only what the program writes: it is accepted exactly when its first line is the envelope, no
    later line gives an unknown state or a text that is no GUID, and a state and a saved scheme are given.
    Carriage returns at the end of a line do not count, and other lines are ignored.
   */
  lemma {:induction false} AcceptedIff(content: string)
    ensures var lines := Pieces(content, '\n');
            ParseRecord(content).Some? <==>
              && Trimmed(lines[0]) == "CppOptimizerPowerSchemeSave/1"
              && (forall l | l in lines[1..] :: LineIsGood(Trimmed(l)))
              && (exists l :: l in lines[1..] && "state=" <= Trimmed(l))
              && (exists l :: l in lines[1..] && "saved=" <= Trimmed(l))
  {
    var lines := Pieces(content, '\n');
    var p := ReadLine(UNREAD, lines[0]);
    if p.ok { ReadLinesSay(p, lines[1..]); } else { BadStaysBad(p, lines[1..]); }
  }

  lemma {:induction false} ReadLinesSnoc(p: Reading, lines: seq<string>, line: string)
    ensures ReadLines(p, lines + [line]) == ReadLine(ReadLines(p, lines), line)
    decreases |lines|
  {
    if lines == [] {
      assert [] + [line] == [line] && [line][1..] == [];
    } else {
      assert (lines + [line])[1..] == lines[1..] + [line];
      ReadLinesSnoc(ReadLine(p, lines[0]), lines[1..], line);
    }
  }

  /** Of two lines that say the same thing the later one counts: what one more line makes of an accepted file. */
  lemma {:induction false} LaterLineCounts(content: string, line: string)
    requires ParseRecord(content).Some? && OneLine(line) && (line == "" || line[|line| - 1] != '\r') && LineIsGood(line)
    ensures var r := ParseRecord(content).value;
            ParseRecord(content + "\n" + line) == Some(
              if "state=" <= line then r.(state := if line[6..] == "pending" then Pending else if line[6..] == "applied" then Applied else Restored)
              else if "saved=" <= line then r.(saved := Normalize(line[6..]).value)
              else if "target=" <= line then r.(target := Normalize(line[7..]))
              else r)
  {
    PiecesSnoc(content, '\n', line);
    ReadLinesSnoc(UNREAD, Pieces(content, '\n'), line);
    KeysDiffer(line);
  }

  ghost predicate ReadingIsValid(p: Reading) {
    (p.saved.Some? ==> IsGuid(p.saved.value)) && (p.target.Some? ==> IsGuid(p.target.value))
  }

  lemma {:induction false} ReadLinesAreValid(p: Reading, lines: seq<string>)
    requires ReadingIsValid(p)
    ensures ReadingIsValid(ReadLines(p, lines))
    decreases |lines|
  {
    if lines != [] { ReadLinesAreValid(ReadLine(p, lines[0]), lines[1..]); }
  }

  /** Whatever file is accepted, its GUIDs are in normal form. */
  lemma {:induction false} ParsedRecordIsValid(content: string)
    requires ParseRecord(content).Some?
    ensures RecordIsValid(ParseRecord(content).value)
  {
    ReadLinesAreValid(UNREAD, Pieces(content, '\n'));
  }
}
