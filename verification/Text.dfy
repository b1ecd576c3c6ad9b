/**
  The string operations the program's text formats are built from: searching as
  `std::string::find` does, decimal printing as `std::to_string` does, guarded decimal
  parsing, and the two ways the program cuts a text into lines.
  A string here is a sequence of bytes written as characters.
 */
module Text {

  datatype Option<+T> = None | Some(value: T)

  /** The counters of the program are 64-bit. */
  const WORD: nat := 0x1_0000_0000_0000_0000

  /** Least number the guarded decimal parser refuses: the guard compares against (2^64 - 1 - 9) / 10. */
  const PARSE_LIMIT: nat := 18446744073709551610

  const GUARD: nat := (WORD - 1 - 9) / 10

  lemma {:induction false} Associate<T>(a: seq<T>, b: seq<T>, c: seq<T>)
    ensures a + b + c == a + (b + c)
  {
  }

  // ---------- ASCII case ----------

  function Lower(c: char): char { if 'A' <= c <= 'Z' then (c as int + 32) as char else c }

  /** Equal up to the case of ASCII letters. */
  predicate SameUpToCase(a: string, b: string) {
    |a| == |b| && forall i | 0 <= i < |a| :: Lower(a[i]) == Lower(b[i])
  }

  /** Character by character the same, or one a capital ASCII letter and the other its small one. */
  lemma {:induction false} SameUpToCaseIff(a: string, b: string)
    ensures SameUpToCase(a, b) <==>
      && |a| == |b|
      && (forall i | 0 <= i < |a| :: a[i] == b[i] || ('A' <= a[i] <= 'Z' && b[i] as int == a[i] as int + 32)
                                    || ('A' <= b[i] <= 'Z' && a[i] as int == b[i] as int + 32))
  {
    if |a| == |b| {
      forall i | 0 <= i < |a|
        ensures Lower(a[i]) == Lower(b[i]) <==> (a[i] == b[i] || ('A' <= a[i] <= 'Z' && b[i] as int == a[i] as int + 32)
                                                 || ('A' <= b[i] <= 'Z' && a[i] as int == b[i] as int + 32))
      {
        SameLetter(a[i], b[i]);
      }
    }
  }

  lemma {:induction false} SameLetter(c: char, d: char)
    ensures Lower(c) == Lower(d) <==> c == d || ('A' <= c <= 'Z' && d as int == c as int + 32) || ('A' <= d <= 'Z' && c as int == d as int + 32)
  {
    assert Lower(c) == Lower(d) <==> Lower(c) as int == Lower(d) as int;
  }

  method SameUpToCaseLoop(a: string, b: string) returns (same: bool)
    ensures same == SameUpToCase(a, b)
  {
    if |a| != |b| { return false; }
    for i := 0 to |a|
      invariant forall k | 0 <= k < i :: Lower(a[k]) == Lower(b[k])
    {
      if Lower(a[i]) != Lower(b[i]) { return false; }
    }
    return true;
  }

  // ---------- searching ----------

  /** `p` occurs in `s` at position `i`. */
  predicate At(s: string, p: string, i: nat) {
    i + |p| <= |s| && s[i..i + |p|] == p
  }

  /** First occurrence of `p` at or after `from`. */
  function Find(s: string, p: string, from: nat := 0): (r: Option<nat>)
    ensures r.Some? ==> from <= r.value && At(s, p, r.value) && forall j | from <= j < r.value :: !At(s, p, j)
    ensures r.None? ==> forall j | from <= j :: !At(s, p, j)
    decreases |s| - from
  {
    if from + |p| > |s| then None
    else if At(s, p, from) then Some(from)
    else Find(s, p, from + 1)
  }

  lemma {:induction false} FindIs(s: string, p: string, from: nat, k: nat)
    requires from <= k && At(s, p, k) && forall j | from <= j < k :: !At(s, p, j)
    ensures Find(s, p, from) == Some(k)
  {
    assert Find(s, p, from).Some?;
  }

  lemma {:induction false} AtHasChar(s: string, p: string, i: nat, k: nat)
    requires k < |p|
    ensures At(s, p, i) ==> s[i + k] == p[k]
  {
    if At(s, p, i) { assert s[i..i + |p|][k] == s[i + k]; }
  }

  /** A key with a character foreign to the text before it (and to its own start). */
  ghost predicate IsForeign(key: string, k: nat, pre: string) { k < |key| && key[k] !in pre && key[k] !in key[..k] }

  /** Such a key is found where it was put. */
  lemma {:induction false} FindAfter(pre: string, key: string, post: string, k: nat)
    requires IsForeign(key, k, pre)
    ensures Find(pre + key + post, key) == Some(|pre|)
  {
    var s := pre + key + post;
    forall j | 0 <= j < |pre| ensures !At(s, key, j) {
      AtHasChar(s, key, j, k);
      assert j + k < |pre| ==> s[j + k] == pre[j + k];
      assert j + k >= |pre| ==> s[j + k] == key[..k][j + k - |pre|];
    }
    FindIs(s, key, 0, |pre|);
  }

  /** A one-character pattern occurs at `i` exactly where that character stands. */
  lemma {:induction false} AtChar(s: string, c: char, i: nat)
    ensures At(s, [c], i) <==> i < |s| && s[i] == c
  {
    if i < |s| { assert s[i..i + 1] == [s[i]]; }
  }

  lemma {:induction false} FindCharIs(s: string, c: char, from: nat, k: nat)
    requires from <= k < |s| && s[k] == c && forall j | from <= j < k :: s[j] != c
    ensures Find(s, [c], from) == Some(k)
  {
    AtChar(s, c, k);
    forall j | from <= j < k ensures !At(s, [c], j) { AtChar(s, c, j); }
    FindIs(s, [c], from, k);
  }

  /** A separator that the word before it does not contain cuts the text right behind that word. */
  lemma {:induction false} FindSeparator(word: string, c: char, rest: string)
    requires c !in word
    ensures Find(word + [c] + rest, [c]) == Some(|word|)
    ensures (word + [c] + rest)[..|word|] == word && (word + [c] + rest)[|word| + 1..] == rest
  {
    FindCharIs(word + [c] + rest, c, 0, |word|);
  }

  lemma {:induction false} FindCharNone(s: string, c: char, from: nat)
    requires forall j | from <= j < |s| :: s[j] != c
    ensures Find(s, [c], from) == None
  {
    forall j: nat | from <= j ensures !At(s, [c], j) { AtChar(s, c, j); }
  }

  /** What a successful one-character search says about the text around it. */
  lemma {:induction false} FindCharFound(s: string, c: char, from: nat)
    ensures Find(s, [c], from).Some? ==>
              var k := Find(s, [c], from).value;
              from <= k < |s| && s[k] == c && forall j | from <= j < k :: s[j] != c
    ensures Find(s, [c], from).None? ==> forall j | from <= j < |s| :: s[j] != c
  {
    var r := Find(s, [c], from);
    if r.Some? {
      AtChar(s, c, r.value);
      forall j | from <= j < r.value ensures s[j] != c {
        AtChar(s, c, j);
      }
    } else {
      forall j | from <= j < |s| ensures s[j] != c { AtChar(s, c, j); }
    }
  }

  // ---------- decimals ----------

  predicate IsDigit(c: char) { '0' <= c <= '9' }

  predicate AllDigits(s: string) { forall i | 0 <= i < |s| :: IsDigit(s[i]) }

  function DigitChar(d: nat): (c: char)
    requires d < 10
    ensures IsDigit(c) && DigitValue(c) == d
  {
    ('0' as int + d) as char
  }

  function DigitValue(c: char): (d: nat)
    requires IsDigit(c)
    ensures d < 10
  {
    c as int - '0' as int
  }

  /** `std::to_string` on an unsigned number. */
  function Decimal(n: nat): (s: string)
    ensures |s| > 0 && AllDigits(s) && Value(s) == n
  {
    if n < 10 then [DigitChar(n)]
    else
      var s := Decimal(n / 10) + [DigitChar(n % 10)];
      assert s[..|s| - 1] == Decimal(n / 10);
      s
  }

  /** The number a string of digits denotes. */
  function Value(s: string): nat
    requires AllDigits(s)
  {
    if s == [] then 0 else Value(s[..|s| - 1]) * 10 + DigitValue(s[|s| - 1])
  }

  lemma {:induction false} DecimalInjective(m: nat, n: nat)
    requires Decimal(m) == Decimal(n)
    ensures m == n
  {
    assert Value(Decimal(m)) == m && Value(Decimal(n)) == n;
  }

  lemma {:induction false} ValuePrefix(s: string, k: nat)
    requires AllDigits(s) && k <= |s|
    ensures Value(s[..k]) <= Value(s)
    decreases |s| - k
  {
    if k == |s| {
      assert s[..k] == s;
    } else {
      ValuePrefix(s, k + 1);
      assert s[..k + 1][..k] == s[..k];
    }
  }

  /** `n` below 10^k prints in at most `k` digits. */
  function Pow10(k: nat): (p: nat) ensures p > 0 { if k == 0 then 1 else 10 * Pow10(k - 1) }

  lemma {:induction false} DecimalLength(n: nat, k: nat)
    requires k > 0 && n < Pow10(k)
    ensures |Decimal(n)| <= k
  {
    if n >= 10 {
      assert Pow10(k) == 10 * Pow10(k - 1);
      DecimalLength(n / 10, k - 1);
    }
  }

  lemma {:induction false} WordPrintsInTwentyDigits(n: nat)
    requires n < WORD
    ensures |Decimal(n)| <= 20
  {
    assert Pow10(5) == 100000 by { assert Pow10(2) == 100; assert Pow10(4) == 10000; }
    assert Pow10(10) == 100000 * Pow10(5) by { assert Pow10(8) == 1000 * Pow10(5); }
    assert Pow10(15) == 100000 * Pow10(10) by { assert Pow10(13) == 1000 * Pow10(10); }
    assert Pow10(20) == 100000 * Pow10(15) by { assert Pow10(18) == 1000 * Pow10(15); }
    DecimalLength(n, 20);
  }

  /** What guarded decimal parsing accepts: digits only, at least one, below the limit. */
  function ParseNat(s: string): (r: Option<nat>) {
    if s != [] && AllDigits(s) && Value(s) < PARSE_LIMIT then Some(Value(s)) else None
  }

  /** One more digit: the number grows by it. */
  lemma {:induction false} PrefixGrows(text: string, i: nat)
    requires i < |text| && AllDigits(text[..i]) && IsDigit(text[i])
    ensures AllDigits(text[..i + 1]) && Value(text[..i + 1]) == Value(text[..i]) * 10 + DigitValue(text[i])
  {
    var more := text[..i + 1];
    assert more[..i] == text[..i] && more[i] == text[i];
    assert forall k | 0 <= k < i :: more[k] == text[..i][k];
  }

  lemma {:induction false} LargePrefixRefuses(text: string, i: nat)
    requires i <= |text| && AllDigits(text[..i]) && Value(text[..i]) >= PARSE_LIMIT
    ensures ParseNat(text) == None
  {
    if AllDigits(text) { ValuePrefix(text, i); }
  }

  /** The loop of the guarded parser: the guard fires before the multiplication could pass 64 bits. */
  method ParseDigits(text: string) returns (r: Option<nat>)
    ensures r == ParseNat(text)
  {
    if text == [] { return None; }
    var value: nat := 0;
    for i := 0 to |text|
      invariant AllDigits(text[..i]) && value == Value(text[..i]) < PARSE_LIMIT
    {
      if !IsDigit(text[i]) { return None; }
      PrefixGrows(text, i);
      if value > GUARD {
        LargePrefixRefuses(text, i + 1);
        return None;
      }
      value := value * 10 + DigitValue(text[i]);
      assert value < WORD;
    }
    assert text[..|text|] == text;
    return Some(value);
  }

  lemma {:induction false} DecimalParses(n: nat)
    ensures ParseNat(Decimal(n)) == if n < PARSE_LIMIT then Some(n) else None
  {
  }

  /** The maximal run of digits starting at `from`. */
  function DigitRun(s: string, from: nat): (r: string)
    ensures AllDigits(r) && from + |r| <= |s| + from && (from <= |s| ==> from + |r| <= |s| && s[from..from + |r|] == r)
    ensures from + |r| < |s| ==> !IsDigit(s[from + |r|])
    decreases |s| - from
  {
    if from < |s| && IsDigit(s[from]) then [s[from]] + DigitRun(s, from + 1) else []
  }

  lemma {:induction false} RunIs(s: string, from: nat, d: string)
    requires AllDigits(d) && from + |d| <= |s| && (from + |d| < |s| ==> !IsDigit(s[from + |d|]))
    requires forall i | 0 <= i < |d| :: s[from + i] == d[i]
    ensures DigitRun(s, from) == d
    decreases |d|
  {
    if d != [] {
      var rest := d[1..];
      assert s[from] == d[0];
      forall i | 0 <= i < |rest| ensures s[from + 1 + i] == rest[i] { assert s[from + (i + 1)] == d[i + 1]; }
      RunIs(s, from + 1, rest);
      assert d == [d[0]] + rest;
    }
  }

  lemma {:induction false} DigitRunIs(s: string, from: nat, d: string)
    requires AllDigits(d) && At(s, d, from) && (from + |d| < |s| ==> !IsDigit(s[from + |d|]))
    ensures DigitRun(s, from) == d
  {
    forall i | 0 <= i < |d| ensures s[from + i] == d[i] { assert s[from..from + |d|][i] == d[i]; }
    RunIs(s, from, d);
  }

  lemma {:induction false} RunIsLong(s: string, from: nat, to: nat)
    requires from <= to <= |s| && forall i | from <= i < to :: IsDigit(s[i])
    ensures |DigitRun(s, from)| >= to - from
    decreases |s| - from
  {
    if from < to { RunIsLong(s, from + 1, to); }
  }

  lemma {:induction false} SliceOfSlice(s: string, from: nat, n: nat, m: nat)
    requires n <= m && from + m <= |s|
    ensures s[from..from + m][..n] == s[from..from + n]
  {
  }

  lemma {:induction false} DigitRunExtends(s: string, from: nat, to: nat)
    requires from <= to <= |s| && AllDigits(s[from..to])
    ensures |DigitRun(s, from)| >= to - from && DigitRun(s, from)[..to - from] == s[from..to]
  {
    forall i | from <= i < to ensures IsDigit(s[i]) { assert s[from..to][i - from] == s[i]; }
    RunIsLong(s, from, to);
    SliceOfSlice(s, from, to - from, |DigitRun(s, from)|);
  }

  lemma {:induction false} DigitsGrow(s: string, from: nat, to: nat)
    requires from <= to < |s| && AllDigits(s[from..to]) && IsDigit(s[to])
    ensures AllDigits(s[from..to + 1]) && Value(s[from..to + 1]) == Value(s[from..to]) * 10 + DigitValue(s[to])
  {
    var more := s[from..to + 1];
    assert more == s[from..to] + [s[to]];
    assert forall i | 0 <= i < |more| :: i < to - from ==> more[i] == s[from..to][i];
    assert more[..|more| - 1] == s[from..to];
  }

  lemma {:induction false} PrefixRefuses(d: string, k: nat)
    requires AllDigits(d) && k <= |d| && Value(d[..k]) >= PARSE_LIMIT
    ensures ParseNat(d) == None
  {
    ValuePrefix(d, k);
  }

  /** Once the guard fires on a prefix, the whole run of digits is refused. */
  lemma {:induction false} GuardRefusesRun(s: string, from: nat, to: nat)
    requires from <= to < |s| && AllDigits(s[from..to]) && IsDigit(s[to]) && Value(s[from..to]) > GUARD
    ensures ParseNat(DigitRun(s, from)) == None
  {
    DigitsGrow(s, from, to);
    DigitRunExtends(s, from, to + 1);
    PrefixRefuses(DigitRun(s, from), to + 1 - from);
  }

  // ---------- pieces and lines ----------

  /** Cutting at each separator; a separator at the very end opens no further piece. */
  function Split(content: string, c: char): (ps: seq<string>)
    ensures |ps| <= |content|
    decreases |content|
  {
    if content == [] then []
    else
      match Find(content, [c])
      case None => [content]
      case Some(k) => [content[..k]] + Split(content[k + 1..], c)
  }

  lemma {:induction false} PiecesHoldNoSeparator(content: string, c: char)
    ensures forall p | p in Split(content, c) :: c !in p
    decreases |content|
  {
    if content != [] {
      FindCharFound(content, c, 0);
      var r := Find(content, [c]);
      if r.Some? { PiecesHoldNoSeparator(content[r.value + 1..], c); }
    }
  }

  lemma {:induction false} PiecesComeFromContent(content: string, c: char, d: char)
    requires d !in content
    ensures forall p | p in Split(content, c) :: d !in p
    decreases |content|
  {
    if content != [] {
      var r := Find(content, [c]);
      if r.Some? { PiecesComeFromContent(content[r.value + 1..], c, d); }
    }
  }

  lemma {:induction false} SplitCons(piece: string, c: char, rest: string)
    requires c !in piece
    ensures Split(piece + [c] + rest, c) == [piece] + Split(rest, c)
  {
    FindSeparator(piece, c, rest);
  }

  lemma {:induction false} SplitLast(piece: string, c: char)
    requires c !in piece && piece != []
    ensures Split(piece, c) == [piece]
  {
    FindCharNone(piece, c, 0);
  }

  /** Cutting at each separator, with the piece behind the last one, even when it is empty. */
  function Pieces(content: string, c: char): (ps: seq<string>)
    ensures ps != []
    decreases |content|
  {
    match Find(content, [c])
    case None => [content]
    case Some(k) => [content[..k]] + Pieces(content[k + 1..], c)
  }

  lemma {:induction false} PiecesCons(piece: string, c: char, rest: string)
    requires c !in piece
    ensures Pieces(piece + [c] + rest, c) == [piece] + Pieces(rest, c)
  {
    FindSeparator(piece, c, rest);
  }

  lemma {:induction false} PiecesLast(piece: string, c: char)
    requires c !in piece
    ensures Pieces(piece, c) == [piece]
  {
    FindCharNone(piece, c, 0);
  }

  /** A text is cut at the first occurrence of a character. */
  lemma {:induction false} CutAtFirst(s: string, c: char)
    requires Find(s, [c]).Some?
    ensures var k := Find(s, [c]).value; k < |s| && c !in s[..k] && s == s[..k] + [c] + s[k + 1..]
  {
    FindCharFound(s, c, 0);
    var k := Find(s, [c]).value;
    assert forall j | 0 <= j < k :: s[..k][j] == s[j];
    assert s == s[..k] + ([s[k]] + s[k + 1..]);
  }

  lemma {:induction false} PiecesSnoc(content: string, c: char, last: string)
    requires c !in last
    ensures Pieces(content + [c] + last, c) == Pieces(content, c) + [last]
    decreases |content|
  {
    PiecesLast(last, c);
    if Find(content, [c]).None? {
      FindCharFound(content, c, 0);
      PiecesCons(content, c, last);
    } else {
      var k := Find(content, [c]).value;
      CutAtFirst(content, c);
      PiecesSnoc(content[k + 1..], c, last);
      PiecesSnocStep(content[..k], content[k + 1..], c, last);
    }
  }

  lemma {:induction false} PiecesSnocStep(first: string, rest: string, c: char, last: string)
    requires c !in first && Pieces(rest + [c] + last, c) == Pieces(rest, c) + [last]
    ensures Pieces(first + [c] + rest + [c] + last, c) == Pieces(first + [c] + rest, c) + [last]
  {
    PiecesCons(first, c, rest);
    PiecesCons(first, c, rest + [c] + last);
    Associate(first + [c], rest + [c], last);
    Associate(first + [c], rest, [c]);
    Associate([first], Pieces(rest, c), [last]);
  }

  /** Pieces put together again with the separator in between. */
  function Join(ps: seq<string>, c: char): string
    requires ps != []
  {
    if |ps| == 1 then ps[0] else ps[0] + [c] + Join(ps[1..], c)
  }

  lemma {:induction false} JoinPieces(content: string, c: char)
    ensures Join(Pieces(content, c), c) == content
    ensures forall p | p in Pieces(content, c) :: c !in p
    decreases |content|
  {
    FindCharFound(content, c, 0);
    var r := Find(content, [c]);
    if r.Some? {
      var rest := content[r.value + 1..];
      JoinPieces(rest, c);
      assert Pieces(content, c)[1..] == Pieces(rest, c);
      assert content == content[..r.value] + [c] + rest;
    }
  }

  lemma {:induction false} PiecesJoin(ps: seq<string>, c: char)
    requires ps != [] && forall p | p in ps :: c !in p
    ensures Pieces(Join(ps, c), c) == ps
  {
    assert ps[0] in ps;
    if |ps| == 1 {
      PiecesLast(ps[0], c);
    } else {
      PiecesJoin(ps[1..], c);
      PiecesCons(ps[0], c, Join(ps[1..], c));
      assert ps == [ps[0]] + ps[1..];
    }
  }

  predicate OneLine(line: string) { '\n' !in line }

  predicate AllOneLine(lines: seq<string>) { forall l | l in lines :: OneLine(l) }

  /** Reading with `std::getline` until the end. */
  function Lines(content: string): (ls: seq<string>)
    ensures |ls| <= |content|
  {
    Split(content, '\n')
  }

  lemma {:induction false} LinesAreLines(content: string)
    ensures AllOneLine(Lines(content))
  {
    PiecesHoldNoSeparator(content, '\n');
  }

  /** Writing lines one after the other, each followed by a newline. */
  function Unlines(lines: seq<string>): string {
    if lines == [] then [] else lines[0] + "\n" + Unlines(lines[1..])
  }

  predicate Terminated(content: string) { content == [] || content[|content| - 1] == '\n' }

  lemma {:induction false} TerminatedCons(line: string, rest: string)
    requires Terminated(rest)
    ensures Terminated(line + "\n" + rest)
  {
  }

  lemma {:induction false} LinesUnlines(lines: seq<string>)
    requires AllOneLine(lines)
    ensures Lines(Unlines(lines)) == lines && Terminated(Unlines(lines))
  {
    if lines != [] {
      var rest := Unlines(lines[1..]);
      LinesUnlines(lines[1..]);
      assert lines[0] in lines;
      SplitCons(lines[0], '\n', rest);
      TerminatedCons(lines[0], rest);
      assert lines == [lines[0]] + lines[1..];
    }
  }

  /** A non-empty terminated content is its first line, a newline and a terminated rest. */
  lemma {:induction false} SplitFirst(content: string) returns (first: string, rest: string)
    requires content != [] && Terminated(content)
    ensures OneLine(first) && Terminated(rest) && content == first + "\n" + rest
  {
    FindCharFound(content, '\n', 0);
    assert content[|content| - 1] == '\n';
    var k := Find(content, "\n").value;
    first, rest := content[..k], content[k + 1..];
  }

  lemma {:induction false} LinesJoinStep(first: string, rest: string, more: string)
    requires OneLine(first) && Split(rest + more, '\n') == Split(rest, '\n') + Split(more, '\n')
    ensures Split(first + "\n" + rest + more, '\n') == Split(first + "\n" + rest, '\n') + Split(more, '\n')
  {
    Associate(first + "\n", rest, more);
    calc {
      Split(first + "\n" + (rest + more), '\n');
      { SplitCons(first, '\n', rest + more); }
      [first] + Split(rest + more, '\n');
      { Associate([first], Split(rest, '\n'), Split(more, '\n')); }
      [first] + Split(rest, '\n') + Split(more, '\n');
      { SplitCons(first, '\n', rest); }
      Split(first + "\n" + rest, '\n') + Split(more, '\n');
    }
  }

  lemma {:induction false} LinesJoin(content: string, more: string)
    requires Terminated(content)
    ensures Lines(content + more) == Lines(content) + Lines(more)
    decreases |content|
  {
    if content == [] {
      assert content + more == more;
    } else {
      var first, rest := SplitFirst(content);
      LinesJoin(rest, more);
      LinesJoinStep(first, rest, more);
    }
  }

  /** Appending one terminated line to a terminated file appends exactly that line. */
  lemma {:induction false} LinesAppend(content: string, line: string)
    requires Terminated(content) && OneLine(line)
    ensures Lines(content + (line + "\n")) == Lines(content) + [line] && Terminated(content + (line + "\n"))
  {
    LinesJoin(content, line + "\n");
    SplitCons(line, '\n', []);
    assert line + "\n" == line + "\n" + [];
  }
}
