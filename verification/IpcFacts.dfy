/**
  The CPOPFACTS/1 payload (source/ipc/ipc_facts.cpp): strict text codec, schema, and the reply
  summary that never echoes the credential.
 */
module IpcFacts {
  import opened Text

  const ENVELOPE := "CPOPFACTS/1"
  const TOKEN_KEY := "agent_token"
  const MAX_TOKEN: nat := 64
  const MAX_ENTRIES: nat := 64
  const MAX_KEY: nat := 64
  const MAX_VALUE: nat := 128
  const SUMMARY_MAX: nat := 480

  /** A blank and the UTF-8 encoding of the ellipsis: four bytes. */
  const ELLIPSIS := [' ', 0xE2 as char, 0x80 as char, 0xA6 as char]

  datatype Fact = Fact(key: string, value: string)

  // ---------- validity ----------

  predicate IsControl(c: char) { c as int < 0x20 || c as int == 0x7F }

  predicate IsKeyChar(c: char) {
    'a' <= c <= 'z' || 'A' <= c <= 'Z' || '0' <= c <= '9' || c == '_' || c == '-'
  }

  predicate KeyIsValid(key: string) {
    0 < |key| <= MAX_KEY && forall i | 0 <= i < |key| :: IsKeyChar(key[i])
  }

  predicate ValueIsValid(value: string) {
    |value| <= MAX_VALUE && forall i | 0 <= i < |value| :: !IsControl(value[i])
  }

  predicate FactIsValid(f: Fact) { KeyIsValid(f.key) && ValueIsValid(f.value) }

  predicate HasKey(facts: seq<Fact>, key: string) { exists i | 0 <= i < |facts| :: facts[i].key == key }

  predicate FactsAreValid(facts: seq<Fact>) {
    && |facts| <= MAX_ENTRIES
    && (forall i | 0 <= i < |facts| :: FactIsValid(facts[i]))
    && (forall i, j | 0 <= j < i < |facts| :: facts[j].key != facts[i].key)
  }

  /** What a list of facts must keep to: at most 64 of them, keys of 1 to 64 letters, digits, '_' or '-', no key
      twice, values of at most 128 bytes without control characters. */
  lemma {:induction false} FactsAreValidIff(facts: seq<Fact>)
    ensures FactsAreValid(facts) <==>
      && |facts| <= 64
      && (forall i | 0 <= i < |facts| ::
            && 1 <= |facts[i].key| <= 64
            && (forall c | c in facts[i].key :: 'a' <= c <= 'z' || 'A' <= c <= 'Z' || '0' <= c <= '9' || c == '_' || c == '-')
            && |facts[i].value| <= 128 && (forall c | c in facts[i].value :: c as int >= 0x20 && c as int != 0x7F))
      && (forall i, j | 0 <= i < |facts| && 0 <= j < |facts| && facts[i].key == facts[j].key :: i == j)
  {
    forall i | 0 <= i < |facts|
      ensures FactIsValid(facts[i]) <==>
        && 1 <= |facts[i].key| <= 64
        && (forall c | c in facts[i].key :: 'a' <= c <= 'z' || 'A' <= c <= 'Z' || '0' <= c <= '9' || c == '_' || c == '-')
        && |facts[i].value| <= 128 && (forall c | c in facts[i].value :: c as int >= 0x20 && c as int != 0x7F)
    {
      FactIsValidIff(facts[i]);
    }
  }

  lemma {:induction false} FactIsValidIff(f: Fact)
    ensures FactIsValid(f) <==>
      && 1 <= |f.key| <= 64
      && (forall c | c in f.key :: 'a' <= c <= 'z' || 'A' <= c <= 'Z' || '0' <= c <= '9' || c == '_' || c == '-')
      && |f.value| <= 128 && (forall c | c in f.value :: c as int >= 0x20 && c as int != 0x7F)
  {
    assert forall i | 0 <= i < |f.key| :: f.key[i] in f.key;
    assert forall i | 0 <= i < |f.value| :: f.value[i] in f.value;
  }

  method ValidateKey(key: string) returns (ok: bool)
    ensures ok == KeyIsValid(key)
  {
    if key == [] || |key| > MAX_KEY { return false; }
    for i := 0 to |key|
      invariant forall k | 0 <= k < i :: !IsControl(key[k])
    {
      if IsControl(key[i]) { return false; }
    }
    for i := 0 to |key|
      invariant forall k | 0 <= k < i :: IsKeyChar(key[k])
    {
      if !IsKeyChar(key[i]) { return false; }
    }
    return true;
  }

  method ValidateValue(value: string) returns (ok: bool)
    ensures ok == ValueIsValid(value)
  {
    if |value| > MAX_VALUE { return false; }
    for i := 0 to |value|
      invariant forall k | 0 <= k < i :: !IsControl(value[k])
    {
      if IsControl(value[i]) { return false; }
    }
    return true;
  }

  method ContainsKey(facts: seq<Fact>, n: nat, key: string) returns (found: bool)
    requires n <= |facts|
    ensures found == HasKey(facts[..n], key)
  {
    for j := 0 to n
      invariant !HasKey(facts[..j], key)
    {
      if facts[j].key == key {
        assert facts[..n][j].key == key;
        return true;
      }
    }
    return false;
  }

  method ValidateFacts(facts: seq<Fact>) returns (ok: bool)
    ensures ok == FactsAreValid(facts)
  {
    if |facts| > MAX_ENTRIES { return false; }
    for i := 0 to |facts|
      invariant FactsAreValid(facts[..i])
    {
      var keyOk := ValidateKey(facts[i].key);
      var valueOk := ValidateValue(facts[i].value);
      if !keyOk || !valueOk { return false; }
      var dup := ContainsKey(facts, i, facts[i].key);
      if dup {
        var j :| 0 <= j < i && facts[..i][j].key == facts[i].key;
        assert facts[j].key == facts[i].key;
        return false;
      }
      assert forall j | 0 <= j < i :: facts[..i][j].key != facts[i].key;
    }
    assert facts[..|facts|] == facts;
    return true;
  }

  // ---------- the text form ----------

  function FactLine(f: Fact): string { f.key + "=" + f.value }

  function FactLines(facts: seq<Fact>): (ls: seq<string>)
    ensures |ls| == |facts|
  {
    if facts == [] then [] else [FactLine(facts[0])] + FactLines(facts[1..])
  }

  /** The envelope line and one line per fact, separated by single newlines. */
  function Serialized(facts: seq<Fact>): string { Join([ENVELOPE] + FactLines(facts), '\n') }

  function Serialize(facts: seq<Fact>): Option<string> {
    if FactsAreValid(facts) then Some(Serialized(facts)) else None
  }

  function ParseFact(line: string): Option<Fact> {
    match Find(line, "=")
    case None => None
    case Some(eq) =>
      var f := Fact(line[..eq], line[eq + 1..]);
      if FactIsValid(f) then Some(f) else None
  }

  /** Reads the remaining lines behind the facts read so far. */
  function ParseFrom(facts: seq<Fact>, lines: seq<string>): Option<seq<Fact>>
    decreases |lines|
  {
    if lines == [] then Some(facts)
    else if |facts| >= MAX_ENTRIES then None
    else
      match ParseFact(lines[0])
      case None => None
      case Some(f) => if HasKey(facts, f.key) then None else ParseFrom(facts + [f], lines[1..])
  }

  function Parse(payload: string): Option<seq<Fact>> {
    var lines := Pieces(payload, '\n');
    if payload == [] || '\r' in payload then None
    else if (exists i | 0 <= i < |lines| :: lines[i] == []) || lines[0] != ENVELOPE then None
    else ParseFrom([], lines[1..])
  }

  method SerializeFactsV1(facts: seq<Fact>) returns (r: Option<string>)
    ensures r == Serialize(facts)
  {
    var valid := ValidateFacts(facts);
    if !valid { return None; }
    var text := ENVELOPE;
    for i := 0 to |facts|
      invariant text == Serialized(facts[..i])
    {
      SerializedSnoc(facts[..i], facts[i]);
      assert facts[..i + 1] == facts[..i] + [facts[i]];
      text := text + "\n" + (facts[i].key + "=" + facts[i].value);
    }
    assert facts[..|facts|] == facts;
    return Some(text);
  }

  lemma {:induction false} FactLinesConcat(a: seq<Fact>, b: seq<Fact>)
    ensures FactLines(a + b) == FactLines(a) + FactLines(b)
  {
    if a == [] {
      assert a + b == b;
    } else {
      assert (a + b)[1..] == a[1..] + b;
      FactLinesConcat(a[1..], b);
    }
  }

  lemma {:induction false} JoinSnoc(ps: seq<string>, p: string, c: char)
    requires ps != []
    ensures Join(ps + [p], c) == Join(ps, c) + [c] + p
  {
    assert (ps + [p])[1..] == ps[1..] + [p];
    if |ps| > 1 {
      JoinSnoc(ps[1..], p, c);
      Associate(ps[0] + [c], Join(ps[1..], c), [c] + p);
      assert Join(ps[1..], c) + [c] + p == Join(ps[1..], c) + ([c] + p);
      assert Join(ps, c) + [c] + p == Join(ps, c) + ([c] + p);
    }
  }

  lemma {:induction false} SerializedSnoc(facts: seq<Fact>, f: Fact)
    ensures Serialized(facts + [f]) == Serialized(facts) + "\n" + FactLine(f)
  {
    FactLinesConcat(facts, [f]);
    assert FactLines([f]) == [FactLine(f)];
    assert [ENVELOPE] + (FactLines(facts) + [FactLine(f)]) == [ENVELOPE] + FactLines(facts) + [FactLine(f)];
    JoinSnoc([ENVELOPE] + FactLines(facts), FactLine(f), '\n');
  }

  lemma {:induction false} CutAtNewline(done: seq<string>, current: string, rest: string)
    requires '\n' !in current
    ensures done + Pieces(current + (['\n'] + rest), '\n') == done + [current] + Pieces("" + rest, '\n')
  {
    assert current + (['\n'] + rest) == current + ['\n'] + rest && "" + rest == rest;
    PiecesCons(current, '\n', rest);
    Associate(done, [current], Pieces(rest, '\n'));
  }

  /** Cuts the payload byte by byte; a carriage return anywhere refuses it. */
  method CutLines(payload: string) returns (lines: Option<seq<string>>)
    ensures lines == if '\r' in payload then None else Some(Pieces(payload, '\n'))
  {
    var done: seq<string>, current := [], "";
    assert "" + payload[0..] == payload && [] + Pieces(payload, '\n') == Pieces(payload, '\n');
    for i := 0 to |payload|
      invariant '\r' !in payload[..i] && '\n' !in current
      invariant done + Pieces(current + payload[i..], '\n') == Pieces(payload, '\n')
    {
      var ch := payload[i];
      if ch == '\r' { return None; }
      assert payload[..i + 1] == payload[..i] + [ch];
      assert payload[i..] == [ch] + payload[i + 1..];
      if ch == '\n' {
        CutAtNewline(done, current, payload[i + 1..]);
        done, current := done + [current], "";
      } else {
        Associate(current, [ch], payload[i + 1..]);
        current := current + [ch];
      }
    }
    assert payload[..|payload|] == payload && current + payload[|payload|..] == current;
    PiecesLast(current, '\n');
    return Some(done + [current]);
  }

  method ParseFactsV1(payload: string) returns (r: Option<seq<Fact>>)
    ensures r == Parse(payload)
  {
    if payload == [] { return None; }
    var cut := CutLines(payload);
    if cut.None? { return None; }
    var lines := cut.value;
    for i := 0 to |lines|
      invariant forall k | 0 <= k < i :: lines[k] != []
    {
      if lines[i] == [] { return None; }
    }
    if lines[0] != ENVELOPE { return None; }
    r := ParseFactLines(lines[1..]);
  }

  method ParseFactLines(lines: seq<string>) returns (r: Option<seq<Fact>>)
    ensures r == ParseFrom([], lines)
  {
    var facts: seq<Fact> := [];
    for i := 0 to |lines|
      invariant ParseFrom(facts, lines[i..]) == ParseFrom([], lines)
    {
      assert lines[i..][0] == lines[i] && lines[i..][1..] == lines[i + 1..];
      if |facts| >= MAX_ENTRIES { return None; }
      var eq := Find(lines[i], "=");
      if eq.None? { return None; }
      var fact := Fact(lines[i][..eq.value], lines[i][eq.value + 1..]);
      var keyOk := ValidateKey(fact.key);
      if !keyOk { return None; }
      var valueOk := ValidateValue(fact.value);
      if !valueOk { return None; }
      var dup := ContainsKey(facts, |facts|, fact.key);
      assert facts[..|facts|] == facts;
      if dup { return None; }
      facts := facts + [fact];
    }
    return Some(facts);
  }

  // ---------- serializing then parsing, and back ----------

  lemma {:induction false} FactLineParses(f: Fact)
    requires FactIsValid(f)
    ensures ParseFact(FactLine(f)) == Some(f)
    ensures FactLine(f) != [] && '\n' !in FactLine(f) && '\r' !in FactLine(f)
  {
    assert forall i | 0 <= i < |f.key| :: IsKeyChar(f.key[i]);
    assert '=' !in f.key && '\n' !in f.key && '\r' !in f.key;
    assert forall i | 0 <= i < |f.value| :: !IsControl(f.value[i]);
    assert '\n' !in f.value && '\r' !in f.value;
    FindSeparator(f.key, '=', f.value);
  }

  lemma {:induction false} ValidCut(a: seq<Fact>, f: Fact, b: seq<Fact>)
    requires FactsAreValid(a + [f] + b)
    ensures FactIsValid(f) && !HasKey(a, f.key) && |a| < MAX_ENTRIES
  {
    var s := a + [f] + b;
    assert s[|a|] == f;
    forall i | 0 <= i < |a| ensures a[i].key != f.key {
      assert s[i] == a[i];
    }
  }

  lemma {:induction false} FactLinesParse(done: seq<Fact>, rest: seq<Fact>)
    requires FactsAreValid(done + rest)
    ensures ParseFrom(done, FactLines(rest)) == Some(done + rest)
    decreases |rest|
  {
    if rest == [] {
      assert done + rest == done;
    } else {
      var f := rest[0];
      assert done + rest == done + [f] + rest[1..];
      ValidCut(done, f, rest[1..]);
      FactLineParses(f);
      FactLinesParse(done + [f], rest[1..]);
      assert FactLines(rest)[1..] == FactLines(rest[1..]);
    }
  }

  lemma {:induction false} FactLinesAreClean(facts: seq<Fact>)
    requires forall i | 0 <= i < |facts| :: FactIsValid(facts[i])
    ensures forall l | l in FactLines(facts) :: l != [] && '\n' !in l && '\r' !in l
  {
    if facts != [] {
      FactLineParses(facts[0]);
      FactLinesAreClean(facts[1..]);
    }
  }

  lemma {:induction false} JoinLacks(ps: seq<string>, c: char, d: char)
    requires ps != [] && c != d && forall p | p in ps :: d !in p
    ensures d !in Join(ps, c)
  {
    assert ps[0] in ps;
    if |ps| > 1 {
      JoinLacks(ps[1..], c, d);
    }
  }

  lemma {:induction false} SerializedIsClean(facts: seq<Fact>)
    requires FactsAreValid(facts)
    ensures Serialized(facts) != [] && '\r' !in Serialized(facts)
    ensures Pieces(Serialized(facts), '\n') == [ENVELOPE] + FactLines(facts)
  {
    var lines := [ENVELOPE] + FactLines(facts);
    FactLinesAreClean(facts);
    EnvelopeIsClean();
    assert forall l | l in lines :: l == ENVELOPE || l in FactLines(facts);
    PiecesJoin(lines, '\n');
    JoinLacks(lines, '\n', '\r');
    assert forall i | 0 <= i < |lines| :: lines[i] in lines;
    JoinIsNotEmpty(lines, '\n');
  }

  lemma {:induction false} FactLineAt(facts: seq<Fact>, i: nat)
    requires i < |facts|
    ensures FactLines(facts)[i] == facts[i].key + "=" + facts[i].value
  {
    if i > 0 { FactLineAt(facts[1..], i - 1); }
  }

  /** The payload of a valid list, line by line. */
  lemma {:induction false} PayloadLines(facts: seq<Fact>)
    requires FactsAreValid(facts)
    ensures var lines := Pieces(Serialized(facts), '\n');
            && |lines| == |facts| + 1 && lines[0] == "CPOPFACTS/1"
            && forall i | 0 <= i < |facts| :: lines[i + 1] == facts[i].key + "=" + facts[i].value
  {
    SerializedIsClean(facts);
    forall i | 0 <= i < |facts| ensures FactLines(facts)[i] == facts[i].key + "=" + facts[i].value { FactLineAt(facts, i); }
  }

  /** Parsing the serialization of a valid fact list gives that list back. */
  lemma {:induction false} FactsRoundTrip(facts: seq<Fact>)
    requires FactsAreValid(facts)
    ensures Parse(Serialized(facts)) == Some(facts)
  {
    SerializedIsClean(facts);
    FactLinesAreClean(facts);
    FactLinesParse([], facts);
    var lines := [ENVELOPE] + FactLines(facts);
    assert lines[0] == ENVELOPE && lines[1..] == FactLines(facts) && [] + facts == facts;
    assert forall l | l in lines :: l == ENVELOPE || l in FactLines(facts);
  }

  lemma {:induction false} EnvelopeIsClean()
    ensures '\n' !in ENVELOPE && '\r' !in ENVELOPE && ENVELOPE != []
  {
  }

  lemma {:induction false} JoinIsNotEmpty(ps: seq<string>, c: char)
    requires ps != [] && ps[0] != []
    ensures Join(ps, c) != []
  {
  }

  lemma {:induction false} ParsedFactIsItsLine(line: string)
    requires ParseFact(line).Some?
    ensures FactLine(ParseFact(line).value) == line && FactIsValid(ParseFact(line).value)
  {
    FindCharFound(line, '=', 0);
    var eq := Find(line, "=").value;
    assert line == line[..eq] + "=" + line[eq + 1..];
  }

  lemma {:induction false} ValidSnoc(done: seq<Fact>, f: Fact)
    requires FactsAreValid(done) && |done| < MAX_ENTRIES && FactIsValid(f) && !HasKey(done, f.key)
    ensures FactsAreValid(done + [f])
  {
  }

  lemma {:induction false} ParsedLinesSerialize(done: seq<Fact>, lines: seq<string>)
    requires FactsAreValid(done) && ParseFrom(done, lines).Some?
    ensures FactsAreValid(ParseFrom(done, lines).value)
    ensures FactLines(ParseFrom(done, lines).value) == FactLines(done) + lines
    decreases |lines|
  {
    if lines == [] {
      assert FactLines(done) + lines == FactLines(done);
    } else {
      var f := ParseFact(lines[0]).value;
      ParsedFactIsItsLine(lines[0]);
      ValidSnoc(done, f);
      ParsedLinesSerialize(done + [f], lines[1..]);
      FactLinesConcat(done, [f]);
      assert FactLines([f]) == [lines[0]];
      assert FactLines(done) + [lines[0]] + lines[1..] == FactLines(done) + lines;
    }
  }

  /** Every accepted payload holds a valid list and is, byte for byte, the serialization of it. */
  lemma {:induction false} AcceptedPayloadIsCanonical(payload: string)
    requires Parse(payload).Some?
    ensures FactsAreValid(Parse(payload).value) && Serialize(Parse(payload).value) == Some(payload)
  {
    var lines := Pieces(payload, '\n');
    ParsedLinesSerialize([], lines[1..]);
    JoinPieces(payload, '\n');
    assert [] + lines[1..] == lines[1..];
    assert [ENVELOPE] + lines[1..] == lines;
  }

  // ---------- the reply summary ----------

  function Without(facts: seq<Fact>, key: string): seq<Fact> {
    if facts == [] then []
    else (if facts[0].key == key then [] else [facts[0]]) + Without(facts[1..], key)
  }

  function Entry(f: Fact): string { " " + FactLine(f) }

  /** Echoes entries until one would not fit, which ends the text with the ellipsis. */
  function Echo(out: string, facts: seq<Fact>): string
    decreases |facts|
  {
    if facts == [] then out
    else if facts[0].key == TOKEN_KEY then Echo(out, facts[1..])
    else if |out| + |Entry(facts[0])| + 3 > SUMMARY_MAX then out + ELLIPSIS
    else Echo(out + Entry(facts[0]), facts[1..])
  }

  function Summary(facts: seq<Fact>): string {
    var echoable := |Without(facts, TOKEN_KEY)|;
    var out := "facts ok (" + Decimal(echoable) + ")";
    if echoable == 0 then out else Echo(out + ":", facts)
  }

  method FormatFactsSummary(facts: seq<Fact>) returns (out: string)
    ensures out == Summary(facts)
  {
    var echoable := 0;
    for i := 0 to |facts|
      invariant echoable + |Without(facts[i..], TOKEN_KEY)| == |Without(facts, TOKEN_KEY)|
    {
      assert facts[i..][1..] == facts[i + 1..];
      if facts[i].key != TOKEN_KEY { echoable := echoable + 1; }
    }
    out := "facts ok (" + Decimal(echoable) + ")";
    if echoable == 0 { return; }
    out := out + ":";
    ghost var start := out;
    for i := 0 to |facts|
      invariant Echo(out, facts[i..]) == Echo(start, facts)
    {
      assert facts[i..][0] == facts[i] && facts[i..][1..] == facts[i + 1..];
      if facts[i].key == TOKEN_KEY { continue; }
      var entry := " " + (facts[i].key + "=" + facts[i].value);
      if |out| + |entry| + 3 > SUMMARY_MAX {
        out := out + ELLIPSIS;
        return;
      }
      out := out + entry;
      if i + 1 == |facts| { return; }
    }
  }

  lemma {:induction false} WithoutTwice(facts: seq<Fact>, key: string)
    ensures Without(Without(facts, key), key) == Without(facts, key)
  {
    if facts != [] {
      WithoutTwice(facts[1..], key);
      if facts[0].key != key {
        assert Without(facts, key)[1..] == Without(facts[1..], key);
      } else {
        assert Without(facts, key) == Without(facts[1..], key);
      }
    }
  }

  lemma {:induction false} EchoSkipsToken(out: string, facts: seq<Fact>)
    ensures Echo(out, Without(facts, TOKEN_KEY)) == Echo(out, facts)
    decreases |facts|
  {
    if facts != [] {
      var rest := Without(facts[1..], TOKEN_KEY);
      if facts[0].key == TOKEN_KEY {
        assert Without(facts, TOKEN_KEY) == rest;
        EchoSkipsToken(out, facts[1..]);
      } else {
        assert Without(facts, TOKEN_KEY)[1..] == rest;
        EchoSkipsToken(out + Entry(facts[0]), facts[1..]);
      }
    }
  }

  /** The summary depends on nothing about the credential: not its value, not even its presence. */
  lemma {:induction false} SummaryIgnoresToken(facts: seq<Fact>)
    ensures Summary(facts) == Summary(Without(facts, TOKEN_KEY))
  {
    WithoutTwice(facts, TOKEN_KEY);
    EchoSkipsToken("facts ok (" + Decimal(|Without(facts, TOKEN_KEY)|) + ")" + ":", facts);
  }

  lemma {:induction false} EchoIsShort(out: string, facts: seq<Fact>)
    requires |out| <= SUMMARY_MAX - 3
    ensures |Echo(out, facts)| <= SUMMARY_MAX + 1
    decreases |facts|
  {
    if facts != [] {
      EchoIsShort(if |out| + |Entry(facts[0])| + 3 > SUMMARY_MAX || facts[0].key == TOKEN_KEY then out else out + Entry(facts[0]), facts[1..]);
    }
  }

  lemma {:induction false} WithoutIsShorter(facts: seq<Fact>, key: string)
    ensures |Without(facts, key)| <= |facts|
  {
    if facts != [] { WithoutIsShorter(facts[1..], key); }
  }

  /** The ellipsis takes one byte more than the three reserved for it, so 481 bounds every summary. */
  lemma {:induction false} SummaryIsShort(facts: seq<Fact>)
    requires |facts| < WORD
    ensures |Summary(facts)| <= 481
  {
    WithoutIsShorter(facts, TOKEN_KEY);
    WordPrintsInTwentyDigits(|Without(facts, TOKEN_KEY)|);
    EchoIsShort("facts ok (" + Decimal(|Without(facts, TOKEN_KEY)|) + ")" + ":", facts);
  }

  lemma {:induction false} WithoutConcat(a: seq<Fact>, b: seq<Fact>, key: string)
    ensures Without(a + b, key) == Without(a, key) + Without(b, key)
  {
    if a == [] {
      assert a + b == b;
    } else {
      WithoutConcat(a[1..], b, key);
      assert (a + b)[1..] == a[1..] + b && (a + b)[0] == a[0];
      Associate(if a[0].key == key then [] else [a[0]], Without(a[1..], key), Without(b, key));
    }
  }

  /** A fact is left out exactly when it has the key; the others keep their places. */
  lemma {:induction false} LeftOutIff(a: seq<Fact>, f: Fact, b: seq<Fact>, key: string)
    ensures Without(a + [f] + b, key) == Without(a, key) + (if f.key == key then [] else [f]) + Without(b, key)
  {
    WithoutConcat(a + [f], b, key);
    WithoutConcat(a, [f], key);
    assert [f][1..] == [];
  }

  lemma {:induction false} WithoutLacks(facts: seq<Fact>, key: string)
    ensures forall f | f in Without(facts, key) :: f.key != key
  {
    if facts != [] { WithoutLacks(facts[1..], key); }
  }

  /** The lines of some facts, each behind a blank. */
  function Listing(facts: seq<Fact>): string {
    if facts == [] then "" else Listing(facts[..|facts| - 1]) + (" " + facts[|facts| - 1].key + "=" + facts[|facts| - 1].value)
  }

  lemma {:induction false} EntryIs(f: Fact)
    ensures Entry(f) == " " + f.key + "=" + f.value
  {
  }

  lemma {:induction false} ListingNext(facts: seq<Fact>, n: nat)
    requires n < |facts|
    ensures Listing(facts[..n + 1]) == Listing(facts[..n]) + Entry(facts[n])
  {
    assert facts[..n + 1][..n] == facts[..n];
    EntryIs(facts[n]);
  }

  /** The text fits with the three bytes that are reserved. */
  predicate Fits(head: string, facts: seq<Fact>) { |head + Listing(facts)| + 3 <= 480 }

  /** Echoing from the k-th fact on. */
  lemma {:induction false} EchoShows(head: string, facts: seq<Fact>, k: nat) returns (n: nat)
    requires k <= |facts| && forall f | f in facts :: f.key != TOKEN_KEY
    ensures k <= n <= |facts|
    ensures Echo(head + Listing(facts[..k]), facts[k..]) == head + Listing(facts[..n]) + if n < |facts| then [' ', 0xE2 as char, 0x80 as char, 0xA6 as char] else ""
    ensures (forall m | k < m <= n :: Fits(head, facts[..m])) && (n < |facts| ==> !Fits(head, facts[..n + 1]))
    decreases |facts| - k
  {
    n := k;
    if k < |facts| {
      ListingNext(facts, k);
      assert facts[k..][0] == facts[k] && facts[k..][1..] == facts[k + 1..] && facts[k] in facts;
      Associate(head, Listing(facts[..k]), Entry(facts[k]));
      if Fits(head, facts[..k + 1]) { n := EchoShows(head, facts, k + 1); }
    } else {
      assert head + Listing(facts[..k]) + "" == head + Listing(facts[..k]);
    }
  }

  /**
    The summary in terms of the facts themselves: their number without the credential, and behind a colon as many
    of their lines, from the first on, as fit with three bytes to spare; an ellipsis stands for the rest.
   */
  lemma {:induction false} SummaryShows(facts: seq<Fact>) returns (n: nat)
    ensures var shown := Without(facts, "agent_token");
            var head := "facts ok (" + Decimal(|shown|) + ")" + if shown == [] then "" else ":";
            && n <= |shown|
            && Summary(facts) == head + Listing(shown[..n]) + (if n < |shown| then [' ', 0xE2 as char, 0x80 as char, 0xA6 as char] else "")
            && (forall m | 0 < m <= n :: Fits(head, shown[..m])) && (n < |shown| ==> !Fits(head, shown[..n + 1]))
  {
    var shown := Without(facts, TOKEN_KEY);
    var text := "facts ok (" + Decimal(|shown|) + ")";
    n := 0;
    if shown != [] {
      WithoutLacks(facts, TOKEN_KEY);
      EchoSkipsToken(text + ":", facts);
      n := EchoShows(text + ":", shown, 0);
      assert shown[0..] == shown && text + ":" + Listing(shown[..0]) == text + ":";
    } else {
      assert text + "" + Listing([]) + "" == text;
    }
  }

  /**
    Walking over the facts that are echoed, from a text of `n` bytes: the first one that does not
    fit finds exactly 477 bytes, the last length from which the ellipsis passes the limit.
   */
  predicate CutsAt477(n: nat, facts: seq<Fact>)
    decreases |facts|
  {
    if facts == [] then false
    else if facts[0].key == TOKEN_KEY then CutsAt477(n, facts[1..])
    else if n + |Entry(facts[0])| + 3 > SUMMARY_MAX then n == 477
    else CutsAt477(n + |Entry(facts[0])|, facts[1..])
  }

  function HeadLength(facts: seq<Fact>): nat { |"facts ok ("| + |Decimal(|Without(facts, TOKEN_KEY)|)| + |"):"| }

  lemma {:induction false} EchoExceedsIff(out: string, facts: seq<Fact>)
    requires |out| <= SUMMARY_MAX - 3
    ensures |Echo(out, facts)| > SUMMARY_MAX <==> CutsAt477(|out|, facts)
    decreases |facts|
  {
    if facts != [] {
      EchoExceedsIff(if |out| + |Entry(facts[0])| + 3 > SUMMARY_MAX || facts[0].key == TOKEN_KEY then out else out + Entry(facts[0]), facts[1..]);
    }
  }

  lemma {:induction false} NothingToEcho(n: nat, facts: seq<Fact>)
    requires Without(facts, TOKEN_KEY) == []
    ensures !CutsAt477(n, facts)
    decreases |facts|
  {
    if facts != [] { NothingToEcho(n, facts[1..]); }
  }

  /** The exact condition under which a summary passes its limit of 480 bytes. */
  lemma {:induction false} SummaryExceedsIff(facts: seq<Fact>)
    requires |facts| < WORD
    ensures |Summary(facts)| > SUMMARY_MAX <==> CutsAt477(HeadLength(facts), facts)
  {
    WithoutIsShorter(facts, TOKEN_KEY);
    WordPrintsInTwentyDigits(|Without(facts, TOKEN_KEY)|);
    if Without(facts, TOKEN_KEY) == [] {
      NothingToEcho(HeadLength(facts), facts);
    } else {
      EchoExceedsIff("facts ok (" + Decimal(|Without(facts, TOKEN_KEY)|) + ")" + ":", facts);
    }
  }

  function Filled(n: nat): (s: string)
    ensures |s| == n && forall i | 0 <= i < n :: s[i] == 'x'
  {
    seq(n, i => 'x')
  }

  /** Facts of 113 bytes: four of them are echoed, a fifth no longer fits. */
  function Wide(key: char): (f: Fact)
    ensures f.key == [key] && |Entry(f)| == 116 && f.key != TOKEN_KEY && |f.value| == 113
    ensures forall i | 0 <= i < |f.value| :: f.value[i] == 'x'
  {
    Fact([key], Filled(113))
  }

  const WIDEST := [Wide('a'), Wide('b'), Wide('c'), Wide('d'), Wide('e')]

  /** Any five echoed facts of that width, by their lengths alone. */
  lemma {:induction false} FiveWideFactsCut(a: Fact, b: Fact, c: Fact, d: Fact, e: Fact)
    requires forall f | f in {a, b, c, d, e} :: |Entry(f)| == 116 && f.key != TOKEN_KEY
    ensures CutsAt477(13, [a, b, c, d, e]) && |Without([a, b, c, d, e], TOKEN_KEY)| == 5
  {
    assert [a, b, c, d, e][1..] == [b, c, d, e] && [b, c, d, e][1..] == [c, d, e];
    assert [c, d, e][1..] == [d, e] && [d, e][1..] == [e] && [e][1..] == [];
    assert |Without([e], TOKEN_KEY)| == 1 && CutsAt477(477, [e]);
    assert |Without([d, e], TOKEN_KEY)| == 2 && CutsAt477(361, [d, e]);
    assert |Without([c, d, e], TOKEN_KEY)| == 3 && CutsAt477(245, [c, d, e]);
    assert |Without([b, c, d, e], TOKEN_KEY)| == 4 && CutsAt477(129, [b, c, d, e]);
  }

  lemma {:induction false} WidestIsValid()
    ensures FactsAreValid(WIDEST)
  {
    forall f | f in WIDEST ensures FactIsValid(f) {
      assert KeyIsValid(f.key);
    }
  }

  /** The case happens: a valid list whose summary has 481 bytes. */
  lemma {:induction false} SummaryReaches481()
    ensures FactsAreValid(WIDEST) && |Summary(WIDEST)| == 481
  {
    WidestIsValid();
    FiveWideFactsCut(Wide('a'), Wide('b'), Wide('c'), Wide('d'), Wide('e'));
    assert |Decimal(5)| == 1;
    SummaryExceedsIff(WIDEST);
    SummaryIsShort(WIDEST);
  }

  // ---------- the schema of version 1 ----------

  function ParseUint32(text: string): Option<nat> {
    if text != [] && AllDigits(text) && Value(text) < 0x1_0000_0000 then Some(Value(text)) else None
  }

  method ParseUint32Loop(text: string) returns (r: Option<nat>)
    ensures r == ParseUint32(text)
  {
    if text == [] { return None; }
    var acc: nat := 0;
    for i := 0 to |text|
      invariant AllDigits(text[..i]) && acc == Value(text[..i]) < 0x1_0000_0000
    {
      if !IsDigit(text[i]) { return None; }
      assert text[..i + 1][..i] == text[..i];
      acc := acc * 10 + DigitValue(text[i]);
      if acc >= 0x1_0000_0000 {
        if AllDigits(text) { ValuePrefix(text, i + 1); }
        return None;
      }
    }
    assert text[..|text|] == text;
    return Some(acc);
  }

  const TOTAL_KEY := "memory_total_mb"
  const AVAILABLE_KEY := "memory_available_mb"

  predicate IsNumericKey(key: string) {
    key == "client_pid" || key == TOTAL_KEY || key == AVAILABLE_KEY
    || key == "memory_load_percent" || key == "user_idle_seconds" || key == "foreground_pid"
  }

  predicate TokenIsWellFormed(value: string) {
    0 < |value| <= MAX_TOKEN && forall i | 0 <= i < |value| :: IsKeyChar(value[i])
  }

  predicate NumberSuits(key: string, n: nat) {
    && (key == TOTAL_KEY ==> n != 0)
    && (key == "memory_load_percent" ==> n <= 100)
    && (key == "foreground_pid" ==> n != 0)
  }

  /** What the schema demands of one fact by itself. */
  predicate FactSuits(f: Fact) {
    if f.key == TOKEN_KEY then TokenIsWellFormed(f.value)
    else if f.key == "observer" then f.value != []
    else IsNumericKey(f.key) && ParseUint32(f.value).Some? && NumberSuits(f.key, ParseUint32(f.value).value)
  }

  predicate AllSuit(facts: seq<Fact>) {
    facts != [] ==> AllSuit(facts[..|facts| - 1]) && FactSuits(facts[|facts| - 1])
  }

  lemma {:induction false} AllSuitPrefix(facts: seq<Fact>, i: nat)
    requires i <= |facts| && AllSuit(facts)
    ensures AllSuit(facts[..i])
  {
    if i < |facts| {
      AllSuitPrefix(facts[..|facts| - 1], i);
      assert facts[..|facts| - 1][..i] == facts[..i];
    } else {
      assert facts[..i] == facts;
    }
  }

  /** The value of the last fact with a numeric key. */
  function LastNumber(facts: seq<Fact>, key: string): Option<nat> {
    if facts == [] then None
    else if facts[|facts| - 1].key == key then ParseUint32(facts[|facts| - 1].value)
    else LastNumber(facts[..|facts| - 1], key)
  }

  predicate SchemaHolds(facts: seq<Fact>) {
    var total, available := LastNumber(facts, TOTAL_KEY), LastNumber(facts, AVAILABLE_KEY);
    && AllSuit(facts)
    && (exists i | 0 <= i < |facts| :: facts[i].key != TOKEN_KEY)
    && (total.Some? && available.Some? ==> available.value <= total.value)
  }

  method TokenCharsOk(value: string) returns (ok: bool)
    ensures ok == TokenIsWellFormed(value)
  {
    if value == [] || |value| > MAX_TOKEN { return false; }
    for i := 0 to |value|
      invariant forall k | 0 <= k < i :: IsKeyChar(value[k])
    {
      if !IsKeyChar(value[i]) { return false; }
    }
    return true;
  }

  /** The checks on one fact; a numeric fact also yields its number. */
  method CheckFact(fact: Fact) returns (ok: bool, numeric: Option<nat>)
    ensures ok == FactSuits(fact)
    ensures ok && (fact.key == TOTAL_KEY || fact.key == AVAILABLE_KEY) ==> numeric == ParseUint32(fact.value)
  {
    numeric := None;
    if fact.key == TOKEN_KEY {
      ok := TokenCharsOk(fact.value);
      return;
    }
    if fact.key == "observer" { return fact.value != [], None; }
    if !IsNumericKey(fact.key) { return false, None; }
    numeric := ParseUint32Loop(fact.value);
    if numeric.None? { return false, None; }
    if fact.key == TOTAL_KEY && numeric.value == 0 { return false, None; }
    if fact.key == "memory_load_percent" && numeric.value > 100 { return false, None; }
    if fact.key == "foreground_pid" && numeric.value == 0 { return false, None; }
    ok := true;
  }

  lemma {:induction false} LastNumberStep(facts: seq<Fact>, i: nat, key: string)
    requires i < |facts|
    ensures LastNumber(facts[..i + 1], key)
         == if facts[i].key == key then ParseUint32(facts[i].value) else LastNumber(facts[..i], key)
  {
    assert facts[..i + 1][..i] == facts[..i];
  }

  method ValidateFactsV1Schema(facts: seq<Fact>) returns (ok: bool)
    ensures ok == SchemaHolds(facts)
  {
    var hasNonCredential := false;
    var total: Option<nat>, available: Option<nat> := None, None;
    for i := 0 to |facts|
      invariant AllSuit(facts[..i])
      invariant hasNonCredential == exists k | 0 <= k < i :: facts[k].key != TOKEN_KEY
      invariant total == LastNumber(facts[..i], TOTAL_KEY)
      invariant available == LastNumber(facts[..i], AVAILABLE_KEY)
    {
      LastNumberStep(facts, i, TOTAL_KEY);
      LastNumberStep(facts, i, AVAILABLE_KEY);
      var suits, numeric := CheckFact(facts[i]);
      assert facts[..i + 1][..i] == facts[..i];
      if !suits {
        if AllSuit(facts) { AllSuitPrefix(facts, i + 1); }
        return false;
      }
      if facts[i].key != TOKEN_KEY { hasNonCredential := true; }
      if facts[i].key == TOTAL_KEY { total := numeric; }
      if facts[i].key == AVAILABLE_KEY { available := numeric; }
    }
    assert facts[..|facts|] == facts;
    ok := hasNonCredential && !(total.Some? && available.Some? && available.value > total.value);
  }

  // ---------- the schema, key by key ----------

  /** Any text that denotes a 32-bit number, leading zeros included. */
  predicate IsNumber(value: string) { value != "" && AllDigits(value) && Value(value) <= 4294967295 }

  /** What each key of the schema takes; no other key is accepted. */
  lemma {:induction false} SchemaOfKeys(key: string, value: string)
    ensures FactSuits(Fact(key, value)) <==>
      || (key == "agent_token" && 1 <= |value| <= 64 && forall c | c in value :: 'a' <= c <= 'z' || 'A' <= c <= 'Z' || '0' <= c <= '9' || c == '_' || c == '-')
      || (key == "observer" && value != "")
      || (key in {"client_pid", "memory_available_mb", "user_idle_seconds"} && IsNumber(value))
      || (key in {"memory_total_mb", "foreground_pid"} && IsNumber(value) && Value(value) >= 1)
      || (key == "memory_load_percent" && IsNumber(value) && Value(value) <= 100)
  {
    assert forall i | 0 <= i < |value| :: value[i] in value;
  }

  lemma {:induction false} AllSuitIff(facts: seq<Fact>)
    ensures AllSuit(facts) <==> forall f | f in facts :: FactSuits(f)
  {
    if facts != [] {
      var n := |facts| - 1;
      AllSuitIff(facts[..n]);
      assert forall f :: f in facts <==> f in facts[..n] || f == facts[n];
    }
  }

  lemma {:induction false} LastNumberIs(facts: seq<Fact>, key: string, i: nat)
    requires i < |facts| && facts[i].key == key && forall j | 0 <= j < |facts| && j != i :: facts[j].key != key
    ensures LastNumber(facts, key) == ParseUint32(facts[i].value)
  {
    var n := |facts| - 1;
    if i < n { LastNumberIs(facts[..n], key, i); }
  }

  lemma {:induction false} NoNumber(facts: seq<Fact>, key: string)
    requires forall i | 0 <= i < |facts| :: facts[i].key != key
    ensures LastNumber(facts, key) == None
  {
    if facts != [] { NoNumber(facts[..|facts| - 1], key); }
  }

  /** The number that a list with distinct keys gives under a key, if it gives one. */
  lemma {:induction false} NumberUnder(facts: seq<Fact>, key: string)
    requires forall i, j | 0 <= i < |facts| && 0 <= j < |facts| && facts[i].key == facts[j].key :: i == j
    requires IsNumericKey(key) && forall f | f in facts :: FactSuits(f)
    ensures LastNumber(facts, key).Some? <==> exists f :: f in facts && f.key == key
    ensures forall f | f in facts && f.key == key :: LastNumber(facts, key) == ParseUint32(f.value) == Some(Value(f.value))
  {
    if i :| 0 <= i < |facts| && facts[i].key == key {
      LastNumberIs(facts, key, i);
      assert facts[i] in facts;
    } else {
      NoNumber(facts, key);
    }
  }

  /** The schema on a list: every fact suits its key, one is no credential, and no more memory is available than there is. */
  lemma {:induction false} SchemaHoldsIff(facts: seq<Fact>)
    requires forall i, j | 0 <= i < |facts| && 0 <= j < |facts| && facts[i].key == facts[j].key :: i == j
    ensures SchemaHolds(facts) <==>
      && (forall f | f in facts :: FactSuits(f))
      && (exists f | f in facts :: f.key != "agent_token")
      && (forall f, g | f in facts && g in facts && f.key == "memory_available_mb" && g.key == "memory_total_mb" :: Value(f.value) <= Value(g.value))
  {
    AllSuitIff(facts);
    if forall f | f in facts :: FactSuits(f) {
      NumberUnder(facts, TOTAL_KEY);
      NumberUnder(facts, AVAILABLE_KEY);
      assert forall i | 0 <= i < |facts| :: facts[i] in facts;
    }
  }
}
