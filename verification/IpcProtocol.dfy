/**
  The fixed 16-byte frame header (source/ipc/ipc_protocol.cpp): little-endian layout, strict
  validation, and the proof that valid headers and accepted byte strings correspond one to one.
  Byte strings are strings whose characters are below 256.
 */
module IpcProtocol {
  import opened Text

  type u8 = n: nat | n < 0x100
  type u16 = n: nat | n < 0x1_0000
  type u32 = n: nat | n < 0x1_0000_0000

  const MAGIC: u32 := 0x43504F50
  const VERSION: u8 := 1
  const MAX_PAYLOAD: nat := 4096
  const HEADER_SIZE: nat := 16

  datatype MessageType = Ping | Ack | FactsSnapshot | Error

  function TypeByte(t: MessageType): u8 {
    match t case Ping => 1 case Ack => 2 case FactsSnapshot => 3 case Error => 4
  }

  function ParseMessageType(b: nat): (r: Option<MessageType>)
    ensures forall t :: r == Some(t) <==> b == TypeByte(t)
  {
    if b == 1 then Some(Ping) else if b == 2 then Some(Ack)
    else if b == 3 then Some(FactsSnapshot) else if b == 4 then Some(Error) else None
  }

  datatype Header = Header(magic: u32, version: u8, kind: u8, reserved: u16, payloadLength: u32, requestId: u32)

  function MakeHeader(t: MessageType, payloadLength: u32, requestId: u32): Header {
    Header(MAGIC, VERSION, TypeByte(t), 0, payloadLength, requestId)
  }

  predicate ValidHeader(h: Header) {
    h.magic == MAGIC && h.version == VERSION && ParseMessageType(h.kind).Some? && h.reserved == 0
    && h.payloadLength <= MAX_PAYLOAD
  }

  predicate IsBytes(s: string) { forall i | 0 <= i < |s| :: s[i] as int < 256 }

  // ---------- little-endian numbers ----------

  function ByteChar(b: u8): char { b as char }

  function U32Bytes(v: u32): (s: string)
    ensures |s| == 4 && IsBytes(s)
  {
    [ByteChar(v % 256), ByteChar(v / 0x100 % 256), ByteChar(v / 0x1_0000 % 256), ByteChar(v / 0x100_0000 % 256)]
  }

  function ReadU32(s: string, at: nat): nat
    requires at + 4 <= |s|
  {
    s[at] as int + 0x100 * (s[at + 1] as int) + 0x1_0000 * (s[at + 2] as int) + 0x100_0000 * (s[at + 3] as int)
  }

  lemma {:induction false} U32RoundTrip(v: u32)
    ensures ReadU32(U32Bytes(v), 0) == v
  {
    var a, b, c := v / 0x100, v / 0x1_0000, v / 0x100_0000;
    ShiftTwice(v);
    Split256(v);
    Split256(a);
    Split256(b);
    assert c % 256 == c;
  }

  lemma {:induction false} Split256(v: nat)
    ensures v == 256 * (v / 256) + v % 256
  {
  }

  lemma {:induction false} LowByte(low: nat, high: nat)
    requires low < 256
    ensures (low + 256 * high) % 256 == low && (low + 256 * high) / 256 == high
  {
  }

  lemma {:induction false} ShiftTwice(v: nat)
    ensures v / 0x1_0000 == v / 0x100 / 0x100 && v / 0x100_0000 == v / 0x1_0000 / 0x100
  {
  }

  lemma {:induction false} U32Unique(s: string)
    requires |s| == 4 && IsBytes(s)
    ensures ReadU32(s, 0) < 0x1_0000_0000 && U32Bytes(ReadU32(s, 0)) == s
  {
    var v := ReadU32(s, 0);
    var b1, b2, b3 := s[1] as int, s[2] as int, s[3] as int;
    LowByte(s[0] as int, b1 + 256 * (b2 + 256 * b3));
    LowByte(b1, b2 + 256 * b3);
    LowByte(b2, b3);
    ShiftTwice(v);
    assert v == s[0] as int + 256 * (b1 + 256 * (b2 + 256 * b3));
  }

  // ---------- the header ----------

  function HeaderBytes(h: Header): (s: string)
    ensures |s| == HEADER_SIZE && IsBytes(s)
  {
    U32Bytes(h.magic)
    + [ByteChar(h.version), ByteChar(h.kind), ByteChar(h.reserved % 256), ByteChar(h.reserved / 256)]
    + U32Bytes(h.payloadLength) + U32Bytes(h.requestId)
  }

  function ParseHeader(s: string): Option<Header> {
    if |s| != HEADER_SIZE || !IsBytes(s) then None
    else
      U32Unique(s[0..4]); U32Unique(s[8..12]); U32Unique(s[12..16]);
      assert ReadU32(s, 0) == ReadU32(s[0..4], 0) && ReadU32(s, 8) == ReadU32(s[8..12], 0) && ReadU32(s, 12) == ReadU32(s[12..16], 0);
      var h := Header(ReadU32(s, 0), s[4] as int, s[5] as int, s[6] as int + 256 * (s[7] as int), ReadU32(s, 8), ReadU32(s, 12));
      if ValidHeader(h) then Some(h) else None
  }

  /** A serialized header is accepted exactly when it is valid, and reads back as itself. */
  lemma {:induction false} HeaderRoundTrip(h: Header)
    ensures ParseHeader(HeaderBytes(h)) == if ValidHeader(h) then Some(h) else None
  {
    var s := HeaderBytes(h);
    assert s[0..4] == U32Bytes(h.magic) && s[8..12] == U32Bytes(h.payloadLength) && s[12..16] == U32Bytes(h.requestId);
    U32RoundTrip(h.magic);
    U32RoundTrip(h.payloadLength);
    U32RoundTrip(h.requestId);
  }

  /** Every accepted byte string is the serialization of the header it gave: no two byte strings mean the same. */
  lemma {:induction false} HeaderUnique(s: string)
    requires ParseHeader(s).Some?
    ensures ValidHeader(ParseHeader(s).value) && HeaderBytes(ParseHeader(s).value) == s
  {
    U32Unique(s[0..4]);
    U32Unique(s[8..12]);
    U32Unique(s[12..16]);
    assert ReadU32(s, 0) == ReadU32(s[0..4], 0) && ReadU32(s, 8) == ReadU32(s[8..12], 0) && ReadU32(s, 12) == ReadU32(s[12..16], 0);
    assert s == s[0..4] + s[4..8] + s[8..12] + s[12..16];
  }

  /** What a header must say to be accepted. */
  lemma {:induction false} ValidHeaderIff(h: Header)
    ensures ValidHeader(h) <==> h.magic == 0x43504F50 && h.version == 1 && 1 <= h.kind <= 4 && h.reserved == 0 && h.payloadLength <= 4096
    ensures TypeByte(Ping) == 1 && TypeByte(Ack) == 2 && TypeByte(FactsSnapshot) == 3 && TypeByte(Error) == 4
  {
    assert ParseMessageType(h.kind).Some? <==> 1 <= h.kind <= 4;
  }

  /** The place of every field in the 16 bytes, numbers with their lowest byte first. */
  lemma {:induction false} HeaderLayout(h: Header)
    ensures var s := HeaderBytes(h);
            && |s| == 16
            && s[0] as int + 256 * (s[1] as int + 256 * (s[2] as int + 256 * (s[3] as int))) == h.magic
            && s[4] as int == h.version && s[5] as int == h.kind && s[6] as int + 256 * (s[7] as int) == h.reserved
            && s[8] as int + 256 * (s[9] as int + 256 * (s[10] as int + 256 * (s[11] as int))) == h.payloadLength
            && s[12] as int + 256 * (s[13] as int + 256 * (s[14] as int + 256 * (s[15] as int))) == h.requestId
  {
    LowestFirst(h.magic);
    LowestFirst(h.payloadLength);
    LowestFirst(h.requestId);
    Split256(h.reserved);
  }

  lemma {:induction false} LowestFirst(v: u32)
    ensures var s := U32Bytes(v); s[0] as int + 256 * (s[1] as int + 256 * (s[2] as int + 256 * (s[3] as int))) == v
  {
    U32RoundTrip(v);
  }

  // ---------- the loops over byte buffers ----------

  method WriteU32LE(value: u32, out: array<char>, at: nat)
    requires at + 4 <= out.Length
    modifies out
    ensures out[at..at + 4] == U32Bytes(value)
    ensures forall j | 0 <= j < out.Length && !(at <= j < at + 4) :: out[j] == old(out[j])
  {
    var rest: nat := value;
    for i := 0 to 4
      invariant rest == if i == 0 then value else if i == 1 then value / 0x100 else if i == 2 then value / 0x1_0000
                        else if i == 3 then value / 0x100_0000 else value / 0x1_0000_0000
      invariant forall j | 0 <= j < i :: out[at + j] == U32Bytes(value)[j]
      invariant forall j | 0 <= j < out.Length && !(at <= j < at + i) :: out[j] == old(out[j])
    {
      out[at + i] := ByteChar(rest % 256);
      rest := rest / 256;
    }
  }

  method SerializeHeader(h: Header, out: array<char>)
    requires out.Length == HEADER_SIZE
    modifies out
    ensures out[..] == HeaderBytes(h)
  {
    WriteU32LE(h.magic, out, 0);
    out[4] := ByteChar(h.version);
    out[5] := ByteChar(h.kind);
    out[6] := ByteChar(h.reserved % 256);
    out[7] := ByteChar(h.reserved / 256);
    WriteU32LE(h.payloadLength, out, 8);
    WriteU32LE(h.requestId, out, 12);
    assert out[..] == out[0..4] + out[4..8] + out[8..12] + out[12..16];
    assert out[0..4] == U32Bytes(h.magic);
  }

  method ReadU32LE(s: string, at: nat) returns (value: nat)
    requires at + 4 <= |s|
    ensures value == ReadU32(s, at)
  {
    value := 0;
    var weight := 1;
    for i := 0 to 4
      invariant weight == if i == 0 then 1 else if i == 1 then 0x100 else if i == 2 then 0x1_0000 else if i == 3 then 0x100_0000 else 0x1_0000_0000
      invariant value == (if i > 0 then s[at] as int else 0) + (if i > 1 then 0x100 * (s[at + 1] as int) else 0)
                       + (if i > 2 then 0x1_0000 * (s[at + 2] as int) else 0) + (if i > 3 then 0x100_0000 * (s[at + 3] as int) else 0)
    {
      value := value + weight * (s[at + i] as int);
      weight := weight * 256;
    }
  }
}
