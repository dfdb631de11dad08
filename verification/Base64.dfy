/** Base64 without padding, as the Go daemon and relay (RawStdEncoding,
    RawURLEncoding) and the Dart app (base64x.dart) write and read it:
    sections 4 and 5 of RFC 4648. */
module Base64 {
  import opened Common

  datatype Alphabet = Standard | UrlSafe

  type Sextet = v: int | 0 <= v < 64

  const PAD: char := '='

  function Symbol(alphabet: Alphabet, v: Sextet): char {
    if v < 26 then (65 + v) as char
    else if v < 52 then (97 + v - 26) as char
    else if v < 62 then (48 + v - 52) as char
    else if v == 62 then (if alphabet.Standard? then '+' else '-')
    else (if alphabet.Standard? then '/' else '_')
  }

  function Value(alphabet: Alphabet, c: char): (v: Option<Sextet>)
    ensures v.Some? ==> Symbol(alphabet, v.value) == c
    ensures forall w: Sextet :: Symbol(alphabet, w) == c ==> v == Some(w)
  {
    if 'A' <= c <= 'Z' then Some(c as int - 65)
    else if 'a' <= c <= 'z' then Some(c as int - 97 + 26)
    else if '0' <= c <= '9' then Some(c as int - 48 + 52)
    else if c == (if alphabet.Standard? then '+' else '-') then Some(62)
    else if c == (if alphabet.Standard? then '/' else '_') then Some(63)
    else None
  }

  // Three bytes make four sextets; a final one or two bytes make two or three.

  function Quantum(b0: byte, b1: byte, b2: byte): (q: seq<Sextet>)
    ensures |q| == 4
  {
    [b0 / 4, b0 % 4 * 16 + b1 / 16, b1 % 16 * 4 + b2 / 64, b2 % 64]
  }

  function Triple(v0: Sextet, v1: Sextet, v2: Sextet, v3: Sextet): (t: seq<byte>)
    ensures |t| == 3
  {
    var b0: byte := v0 * 4 + v1 / 16;
    var b1: byte := v1 % 16 * 16 + v2 / 4;
    var b2: byte := v2 % 4 * 64 + v3;
    [b0, b1, b2]
  }

  function Sextets(bytes: seq<byte>): (v: seq<Sextet>) {
    if |bytes| == 0 then []
    else if |bytes| == 1 then Quantum(bytes[0], 0, 0)[..2]
    else if |bytes| == 2 then Quantum(bytes[0], bytes[1], 0)[..3]
    else Quantum(bytes[0], bytes[1], bytes[2]) + Sextets(bytes[3..])
  }

  function Bytes(v: seq<Sextet>): (bytes: Option<seq<byte>>) {
    if |v| == 0 then Some([])
    else if |v| == 1 then None
    else if |v| == 2 then Some(Triple(v[0], v[1], 0, 0)[..1])
    else if |v| == 3 then Some(Triple(v[0], v[1], v[2], 0)[..2])
    else
      match Bytes(v[4..])
      case None => None
      case Some(rest) => Some(Triple(v[0], v[1], v[2], v[3]) + rest)
  }

  /** The bits of the last sextet that no byte uses are all zero. */
  predicate TrailingBitsClear(v: seq<Sextet>) {
    if |v| >= 4 then TrailingBitsClear(v[4..])
    else (|v| == 2 ==> v[1] % 16 == 0) && (|v| == 3 ==> v[2] % 4 == 0)
  }

  /** The number whose digits in this base are `digits`, behind those of `before`. */
  function Digits(before: nat, digits: seq<nat>, base: nat): nat
    decreases |digits|
  {
    if digits == [] then before else Digits(before * base + digits[0], digits[1..], base)
  }

  lemma DigitsNext(before: nat, digits: seq<nat>, base: nat)
    ensures digits == [] ==> Digits(before, digits, base) == before
    ensures digits != [] ==> Digits(before, digits, base) == Digits(before * base + digits[0], digits[1..], base)
  {
  }

  lemma DigitsFour(before: nat, digits: seq<nat>)
    requires |digits| >= 4
    ensures Digits(before, digits, 64)
         == Digits(before * 0x100_0000 + digits[0] * 0x4_0000 + digits[1] * 0x1000 + digits[2] * 64 + digits[3],
                   digits[4..], 64)
  {
    hide Digits;
    assert digits[1..][1..] == digits[2..] && digits[2..][1..] == digits[3..] && digits[3..][1..] == digits[4..];
    var n := before * 64 + digits[0];
    DigitsNext(before, digits, 64);
    DigitsNext(n, digits[1..], 64);
    DigitsNext(n * 64 + digits[1], digits[2..], 64);
    DigitsNext((n * 64 + digits[1]) * 64 + digits[2], digits[3..], 64);
  }

  lemma DigitsThree(before: nat, digits: seq<nat>)
    requires |digits| >= 3
    ensures Digits(before, digits, 256)
         == Digits(before * 0x100_0000 + digits[0] * 0x1_0000 + digits[1] * 256 + digits[2], digits[3..], 256)
  {
    hide Digits;
    assert digits[1..][1..] == digits[2..] && digits[2..][1..] == digits[3..];
    var n := before * 256 + digits[0];
    DigitsNext(before, digits, 256);
    DigitsNext(n, digits[1..], 256);
    DigitsNext(n * 256 + digits[1], digits[2..], 256);
  }

  /** The sextets spell the bits of the bytes, first to last, filled up with zero bits. */
  lemma {:induction false} SameBits(bytes: seq<byte>, before: nat)
    ensures Digits(before, Sextets(bytes), 64)
         == Digits(before, bytes, 256) * (if |bytes| % 3 == 1 then 16 else if |bytes| % 3 == 2 then 4 else 1)
  {
    if |bytes| >= 3 {
      var q, rest := Quantum(bytes[0], bytes[1], bytes[2]), bytes[3..];
      var n := before * 0x100_0000 + (bytes[0] as nat) * 0x1_0000 + (bytes[1] as nat) * 256 + bytes[2] as nat;
      QuantumBits(bytes[0], bytes[1], bytes[2]);
      DigitsFour(before, q + Sextets(rest));
      DigitsThree(before, bytes);
      assert (q + Sextets(rest))[4..] == Sextets(rest);
      SameBits(rest, n);
    } else if |bytes| == 2 {
      TwoLeft(before, bytes[0], bytes[1]);
      assert bytes == [bytes[0], bytes[1]];
    } else if |bytes| == 1 {
      OneLeft(before, bytes[0]);
      assert bytes == [bytes[0]];
    }
  }

  lemma TwoLeft(before: nat, b0: byte, b1: byte)
    ensures Digits(before, Sextets([b0, b1]), 64) == Digits(before, [b0, b1], 256) * 4
  {
    var v := Sextets([b0, b1]);
    hide Digits;
    assert v[1..] == [v[1], v[2]] && [v[1], v[2]][1..] == [v[2]] && [v[2]][1..] == [];
    assert [b0, b1][1..] == [b1] && [b1][1..] == [];
    DigitsNext(before, v, 64);
    DigitsNext(before * 64 + v[0] as nat, [v[1], v[2]], 64);
    DigitsNext((before * 64 + v[0] as nat) * 64 + v[1] as nat, [v[2]], 64);
    DigitsNext(((before * 64 + v[0] as nat) * 64 + v[1] as nat) * 64 + v[2] as nat, [], 64);
    DigitsNext(before, [b0, b1], 256);
    DigitsNext(before * 256 + b0 as nat, [b1], 256);
    DigitsNext((before * 256 + b0 as nat) * 256 + b1 as nat, [], 256);
  }

  lemma OneLeft(before: nat, b0: byte)
    ensures Digits(before, Sextets([b0]), 64) == Digits(before, [b0], 256) * 16
  {
    var v := Sextets([b0]);
    hide Digits;
    assert v[1..] == [v[1]] && [v[1]][1..] == [] && [b0][1..] == [];
    DigitsNext(before, v, 64);
    DigitsNext(before * 64 + v[0] as nat, [v[1]], 64);
    DigitsNext((before * 64 + v[0] as nat) * 64 + v[1] as nat, [], 64);
    DigitsNext(before, [b0], 256);
    DigitsNext(before * 256 + b0 as nat, [], 256);
  }

  lemma QuantumBits(b0: byte, b1: byte, b2: byte)
    ensures var q := Quantum(b0, b1, b2);
            (q[0] as int) * 0x4_0000 + (q[1] as int) * 0x1000 + (q[2] as int) * 64 + q[3] as int
            == (b0 as int) * 0x1_0000 + (b1 as int) * 256 + b2 as int
  {
  }

  /** Packing is injective, and its image is exactly the canonical sextet strings. */
  lemma {:induction false} PackUnpack(bytes: seq<byte>, v: seq<Sextet>)
    ensures Sextets(bytes) == v <==> Bytes(v) == Some(bytes) && TrailingBitsClear(v)
  {
    UnpackPack(bytes);
    if Bytes(v) == Some(bytes) && TrailingBitsClear(v) {
      PackCanonical(v);
    }
  }

  lemma Parts4(hi: int, lo: int)
    requires 0 <= lo < 4
    ensures (hi * 4 + lo) / 4 == hi && (hi * 4 + lo) % 4 == lo
  {
  }

  lemma Parts16(hi: int, lo: int)
    requires 0 <= lo < 16
    ensures (hi * 16 + lo) / 16 == hi && (hi * 16 + lo) % 16 == lo
  {
  }

  lemma Parts64(hi: int, lo: int)
    requires 0 <= lo < 64
    ensures (hi * 64 + lo) / 64 == hi && (hi * 64 + lo) % 64 == lo
  {
  }

  lemma QuantumTriple(b0: byte, b1: byte, b2: byte)
    ensures var q := Quantum(b0, b1, b2); Triple(q[0], q[1], q[2], q[3]) == [b0, b1, b2]
  {
    Parts16(b0 % 4, b1 / 16);
    Parts4(b1 % 16, b2 / 64);
  }

  lemma TripleQuantum(v0: Sextet, v1: Sextet, v2: Sextet, v3: Sextet)
    ensures var t := Triple(v0, v1, v2, v3); Quantum(t[0], t[1], t[2]) == [v0, v1, v2, v3]
  {
    Parts4(v0, v1 / 16);
    Parts16(v1 % 16, v2 / 4);
    Parts64(v2 % 4, v3);
  }

  lemma UnpackFirst(q: seq<Sextet>, rest: seq<Sextet>)
    requires |q| == 4
    ensures Bytes(rest).Some? <==> Bytes(q + rest).Some?
    ensures Bytes(rest).Some? ==>
              Bytes(q + rest) == Some(Triple(q[0], q[1], q[2], q[3]) + Bytes(rest).value)
    ensures TrailingBitsClear(q + rest) <==> TrailingBitsClear(rest)
  {
    hide Triple;
    assert (q + rest)[4..] == rest;
  }

  lemma PackFirst(t: seq<byte>, rest: seq<byte>)
    requires |t| == 3
    ensures Sextets(t + rest) == Quantum(t[0], t[1], t[2]) + Sextets(rest)
  {
    hide Quantum;
    assert (t + rest)[3..] == rest;
  }

  lemma ShortQuanta(b0: byte, b1: byte)
    ensures var q := Quantum(b0, 0, 0); q[1] % 16 == 0 && q[2] == 0 && q[3] == 0
    ensures var q := Quantum(b0, b1, 0); q[2] % 4 == 0 && q[3] == 0
  {
    Parts16(b0 % 4, 0);
    Parts4(b1 % 16, 0);
  }

  lemma UnpackShort(bytes: seq<byte>)
    requires |bytes| < 3
    ensures Bytes(Sextets(bytes)) == Some(bytes) && TrailingBitsClear(Sextets(bytes))
  {
    hide Quantum, Triple;
    if |bytes| == 1 {
      ShortQuanta(bytes[0], 0);
      QuantumTriple(bytes[0], 0, 0);
      assert Bytes(Sextets(bytes)).value == [bytes[0]] == bytes;
    } else if |bytes| == 2 {
      ShortQuanta(bytes[0], bytes[1]);
      QuantumTriple(bytes[0], bytes[1], 0);
      assert Bytes(Sextets(bytes)).value == [bytes[0], bytes[1]] == bytes;
    }
  }

  lemma {:induction false} UnpackPack(bytes: seq<byte>)
    ensures Bytes(Sextets(bytes)) == Some(bytes) && TrailingBitsClear(Sextets(bytes))
  {
    if |bytes| < 3 {
      UnpackShort(bytes);
    } else {
      hide Quantum, Triple;
      var t, rest := bytes[..3], bytes[3..];
      var q := Quantum(t[0], t[1], t[2]);
      assert bytes == t + rest;
      PackFirst(t, rest);
      UnpackPack(rest);
      UnpackFirst(q, Sextets(rest));
      QuantumTriple(t[0], t[1], t[2]);
      assert t == [t[0], t[1], t[2]];
    }
  }

  lemma PackShort(v: seq<Sextet>)
    requires |v| < 4 && |v| != 1 && TrailingBitsClear(v)
    ensures Sextets(Bytes(v).value) == v
  {
    if |v| == 2 {
      TripleQuantum(v[0], v[1], 0, 0);
    } else if |v| == 3 {
      TripleQuantum(v[0], v[1], v[2], 0);
    }
  }

  lemma {:induction false} PackCanonical(v: seq<Sextet>)
    requires Bytes(v).Some? && TrailingBitsClear(v)
    ensures Sextets(Bytes(v).value) == v
  {
    if |v| < 4 {
      PackShort(v);
    } else {
      hide Quantum, Triple;
      var q, rest := v[..4], v[4..];
      assert v == q + rest;
      UnpackFirst(q, rest);
      PackCanonical(rest);
      PackFirst(Triple(q[0], q[1], q[2], q[3]), Bytes(rest).value);
      TripleQuantum(q[0], q[1], q[2], q[3]);
    }
  }

  // Text.

  function Write(alphabet: Alphabet, v: seq<Sextet>): (text: string)
    ensures |text| == |v|
    ensures forall i :: 0 <= i < |v| ==> text[i] == Symbol(alphabet, v[i])
  {
    seq(|v|, i requires 0 <= i < |v| => Symbol(alphabet, v[i]))
  }

  function Read(alphabet: Alphabet, text: string): (v: Option<seq<Sextet>>)
    ensures v.Some? ==> Write(alphabet, v.value) == text
  {
    if forall i :: 0 <= i < |text| ==> Value(alphabet, text[i]).Some? then
      Some(seq(|text|, i requires 0 <= i < |text| => Value(alphabet, text[i]).value))
    else None
  }

  lemma ReadWritten(alphabet: Alphabet, v: seq<Sextet>)
    ensures Read(alphabet, Write(alphabet, v)) == Some(v)
  {
    var text := Write(alphabet, v);
    assert forall i :: 0 <= i < |v| ==> Value(alphabet, text[i]) == Some(v[i]);
    assert Read(alphabet, text).value == v;
  }

  /** Go's RawStdEncoding and RawURLEncoding. */
  function EncodeRaw(alphabet: Alphabet, bytes: seq<byte>): string {
    Write(alphabet, Sextets(bytes))
  }

  predicate NotNewline(c: char) { c != '\r' && c != '\n' }

  /** Go skips carriage returns and line feeds, and ignores unused trailing bits. */
  function DecodeRaw(alphabet: Alphabet, text: string): Option<seq<byte>> {
    match Read(alphabet, Filter(text, NotNewline))
    case None => None
    case Some(v) => Bytes(v)
  }

  /** Dart's base64Encode and base64UrlEncode: the same, padded to a multiple of four. */
  function EncodePadded(alphabet: Alphabet, bytes: seq<byte>): string {
    AddPads(EncodeRaw(alphabet, bytes))
  }

  function Pads(n: nat): (s: string) {
    seq(n, _ => PAD)
  }

  function PadsNeeded(n: nat): nat {
    (4 - n % 4) % 4
  }

  function AddPads(text: string): string {
    text + Pads(PadsNeeded(|text|))
  }

  predicate NotPad(c: char) { c != PAD }

  function StripPads(text: string): string {
    Filter(text, NotPad)
  }

  /** How many pad characters end the text. */
  function TrailingPads(text: string): (n: nat)
    ensures n <= |text|
    ensures forall i :: |text| - n <= i < |text| ==> text[i] == PAD
    ensures n < |text| ==> text[|text| - n - 1] != PAD
  {
    if text == [] || text[|text| - 1] != PAD then 0 else 1 + TrailingPads(text[..|text| - 1])
  }

  function UrlSpelling(c: char): char {
    if c == '+' then '-' else if c == '/' then '_' else c
  }

  function UrlSpelled(text: string): (s: string)
    ensures |s| == |text|
    ensures forall i :: 0 <= i < |s| ==> s[i] == UrlSpelling(text[i])
  {
    seq(|text|, i requires 0 <= i < |text| => UrlSpelling(text[i]))
  }

  /** Dart reads either alphabet, whatever it was asked to write. */
  function ReadEither(text: string): Option<seq<Sextet>> {
    Read(UrlSafe, UrlSpelled(text))
  }

  /** Dart's decoder: padded text only, unused bits zero. */
  function DecodePadded(text: string): Option<seq<byte>> {
    var pads := TrailingPads(text);
    if |text| % 4 != 0 || pads > 2 then None
    else
      match ReadEither(text[..|text| - pads])
      case None => None
      case Some(v) => if TrailingBitsClear(v) then Bytes(v) else None
  }

  /** Dart's base64Url.normalize: the standard alphabet, padding completed. */
  function Normalize(text: string): Option<string> {
    var pads := TrailingPads(text);
    if pads > 2 || (pads > 0 && |text| % 4 != 0) then None
    else
      match ReadEither(text[..|text| - pads])
      case None => None
      case Some(v) => if |v| % 4 == 1 then None else Some(AddPads(Write(Standard, v)))
  }

  // The four functions of base64x.dart.

  function UrlNoPadEncode(bytes: seq<byte>): string { StripPads(EncodePadded(UrlSafe, bytes)) }

  function UrlNoPadDecode(text: string): Option<seq<byte>> {
    match Normalize(text)
    case None => None
    case Some(padded) => DecodePadded(padded)
  }

  function StdNoPadEncode(bytes: seq<byte>): string { StripPads(EncodePadded(Standard, bytes)) }

  function StdNoPadDecode(text: string): Option<seq<byte>> {
    DecodePadded(text + Pads(PadsNeeded(|text|)))
  }

  lemma {:induction false} FilterNone<T>(s: seq<T>, keep: T -> bool)
    requires forall x :: x in s ==> !keep(x)
    ensures Filter(s, keep) == []
  {
    if s != [] { FilterNone(s[..|s| - 1], keep); }
  }

  /** Stripping the pads of padded text leaves Go's raw text, and re-adding
      (4 - n%4)%4 of them restores the padded text. */
  lemma StripThenPad(alphabet: Alphabet, bytes: seq<byte>)
    ensures StripPads(EncodePadded(alphabet, bytes)) == EncodeRaw(alphabet, bytes)
    ensures AddPads(StripPads(EncodePadded(alphabet, bytes))) == EncodePadded(alphabet, bytes)
  {
    StripWritten(alphabet, Sextets(bytes));
  }

  lemma StripWritten(alphabet: Alphabet, v: seq<Sextet>)
    ensures StripPads(AddPads(Write(alphabet, v))) == Write(alphabet, v)
  {
    var raw := Write(alphabet, v);
    hide PadsNeeded;
    var pads := Pads(PadsNeeded(|raw|));
    FilterConcat(raw, pads, NotPad);
    FilterAll(raw, NotPad);
    FilterNone(pads, NotPad);
  }

  lemma WrittenHasNoNewline(alphabet: Alphabet, v: seq<Sextet>)
    ensures Filter(Write(alphabet, v), NotNewline) == Write(alphabet, v)
  {
    FilterAll(Write(alphabet, v), NotNewline);
  }

  /** Go accepts exactly the encoding of `bytes`, up to inserted line breaks and
      unused trailing bits: text free of both decodes to `bytes` only if it is the encoding. */
  lemma DecodeRawExactly(alphabet: Alphabet, bytes: seq<byte>, text: string)
    ensures text == EncodeRaw(alphabet, bytes) <==>
            && DecodeRaw(alphabet, text) == Some(bytes)
            && Filter(text, NotNewline) == text
            && TrailingBitsClear(Read(alphabet, text).value)
  {
    PackUnpack(bytes, Sextets(bytes));
    if text == EncodeRaw(alphabet, bytes) {
      WrittenHasNoNewline(alphabet, Sextets(bytes));
      ReadWritten(alphabet, Sextets(bytes));
    }
    if DecodeRaw(alphabet, text) == Some(bytes) && Filter(text, NotNewline) == text {
      PackUnpack(bytes, Read(alphabet, text).value);
    }
  }

  lemma ReadEitherWritten(alphabet: Alphabet, v: seq<Sextet>)
    ensures ReadEither(Write(alphabet, v)) == Some(v)
  {
    assert UrlSpelled(Write(alphabet, v)) == Write(UrlSafe, v);
    ReadWritten(UrlSafe, v);
  }

  lemma {:induction false} PadsCounted(alphabet: Alphabet, v: seq<Sextet>, n: nat)
    ensures TrailingPads(Write(alphabet, v) + Pads(n)) == n
  {
    var text := Write(alphabet, v);
    var padded := text + Pads(n);
    if n > 0 {
      assert padded[..|padded| - 1] == text + Pads(n - 1);
      PadsCounted(alphabet, v, n - 1);
    } else {
      assert padded == text;
    }
  }

  lemma {:induction false} BytesDefined(v: seq<Sextet>)
    ensures Bytes(v).Some? <==> |v| % 4 != 1
  {
    hide Triple;
    if |v| >= 4 { BytesDefined(v[4..]); }
  }

  lemma PaddedLength(n: nat)
    requires n % 4 != 1
    ensures PadsNeeded(n) <= 2 && (n + PadsNeeded(n)) % 4 == 0
  {
  }

  lemma DecodeParts(text: string, n: nat, v: seq<Sextet>)
    requires n <= 2 && |text + Pads(n)| % 4 == 0
    requires TrailingPads(text + Pads(n)) == n && ReadEither(text) == Some(v)
    ensures DecodePadded(text + Pads(n)) == if TrailingBitsClear(v) then Bytes(v) else None
  {
    hide Bytes, TrailingBitsClear, ReadEither;
    assert (text + Pads(n))[..|text|] == text;
  }

  lemma DecodePaddedWritten(alphabet: Alphabet, v: seq<Sextet>)
    requires Bytes(v).Some?
    ensures DecodePadded(AddPads(Write(alphabet, v))) == if TrailingBitsClear(v) then Bytes(v) else None
  {
    hide Bytes, TrailingBitsClear, ReadEither, DecodePadded, PadsNeeded;
    var text := Write(alphabet, v);
    var n := PadsNeeded(|text|);
    assert n <= 2 && |text + Pads(n)| % 4 == 0 by { BytesDefined(v); PaddedLength(|text|); }
    assert TrailingPads(text + Pads(n)) == n by { PadsCounted(alphabet, v, n); }
    assert ReadEither(text) == Some(v) by { ReadEitherWritten(alphabet, v); }
    DecodeParts(text, n, v);
  }

  lemma NormalizeWritten(alphabet: Alphabet, v: seq<Sextet>)
    requires Bytes(v).Some?
    ensures Normalize(Write(alphabet, v)) == Some(AddPads(Write(Standard, v)))
  {
    var text := Write(alphabet, v);
    PadsCounted(alphabet, v, 0);
    assert text + Pads(0) == text;
    assert text[..|text|] == text;
    ReadEitherWritten(alphabet, v);
    BytesDefined(v);
  }

  /** Every writer's text is read back by every reader of the same alphabet. */
  lemma CrossLanguageRoundTrip(bytes: seq<byte>)
    ensures DecodeRaw(Standard, EncodeRaw(Standard, bytes)) == Some(bytes)
    ensures DecodeRaw(UrlSafe, EncodeRaw(UrlSafe, bytes)) == Some(bytes)
    ensures DecodeRaw(Standard, StdNoPadEncode(bytes)) == Some(bytes)
    ensures DecodeRaw(UrlSafe, UrlNoPadEncode(bytes)) == Some(bytes)
    ensures StdNoPadDecode(EncodeRaw(Standard, bytes)) == Some(bytes)
    ensures UrlNoPadDecode(EncodeRaw(UrlSafe, bytes)) == Some(bytes)
    ensures StdNoPadDecode(StdNoPadEncode(bytes)) == Some(bytes)
    ensures UrlNoPadDecode(UrlNoPadEncode(bytes)) == Some(bytes)
  {
    DecodeRawExactly(Standard, bytes, EncodeRaw(Standard, bytes));
    DecodeRawExactly(UrlSafe, bytes, EncodeRaw(UrlSafe, bytes));
    StripThenPad(Standard, bytes);
    StripThenPad(UrlSafe, bytes);
    UnpackPack(bytes);
    DecodePaddedWritten(Standard, Sextets(bytes));
    NormalizeWritten(UrlSafe, Sextets(bytes));
  }
}
