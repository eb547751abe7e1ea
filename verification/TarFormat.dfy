/**
 Byte-level pieces of the POSIX tar format written by apps/api/src/export-archive.ts: octal and decimal
 numerals, the 512-byte header with its checksum, and the length of a pax record.
 */
module TarFormat {
  import opened Options

  type byte = n: int | 0 <= n < 256

  const BLOCK := 512
  const SPACE: byte := 32
  const ZERO: byte := 48
  /** 0o77777777777 */
  const MAX_SIZE := 8_589_934_591

  function Repeat(b: byte, n: nat): (s: seq<byte>)
    ensures |s| == n && forall i | 0 <= i < n :: s[i] == b
  {
    if n == 0 then [] else [b] + Repeat(b, n - 1)
  }

  // ---- Numerals in a base ----

  predicate Base(k: nat) {
    2 <= k <= 10
  }

  function Numeral(n: nat, k: nat): (s: seq<byte>)
    requires Base(k)
    ensures |s| >= 1
    decreases n
  {
    if n < k then [ZERO + n] else Numeral(n / k, k) + [ZERO + n % k]
  }

  predicate IsDigit(b: byte, k: nat) {
    ZERO <= b < ZERO + k
  }

  function Value(s: seq<byte>, k: nat): int {
    if s == [] then 0 else Value(s[..|s| - 1], k) * k + (s[|s| - 1] - ZERO)
  }

  function DigitPrefix(s: seq<byte>, k: nat): seq<byte> {
    if s != [] && IsDigit(s[0], k) then [s[0]] + DigitPrefix(s[1..], k) else []
  }

  /** parseInt: the number spelled by the leading digits, if there is one. */
  function ParseInt(s: seq<byte>, k: nat): Option<int> {
    var p := DigitPrefix(s, k);
    if p == [] then None else Some(Value(p, k))
  }

  function PadStart(s: seq<byte>, width: nat): seq<byte> {
    if |s| >= width then s else Repeat(ZERO, width - |s|) + s
  }

  function Pow(k: nat, e: nat): nat {
    if e == 0 then 1 else k * Pow(k, e - 1)
  }

  lemma DivisionParts(n: nat, k: nat)
    requires Base(k)
    ensures n == (n / k) * k + n % k
  {
  }

  lemma QuotientBelow(n: nat, k: nat, p: nat)
    requires Base(k) && n < k * p
    ensures n / k < p
  {
    DivisionParts(n, k);
    var q := n / k;
    assert q >= p ==> q * k >= p * k;
  }

  lemma {:induction false} NumeralValue(n: nat, k: nat)
    requires Base(k)
    ensures Value(Numeral(n, k), k) == n
    ensures forall i | 0 <= i < |Numeral(n, k)| :: IsDigit(Numeral(n, k)[i], k)
    decreases n
  {
    if n >= k {
      NumeralValue(n / k, k);
      assert Numeral(n, k)[..|Numeral(n, k)| - 1] == Numeral(n / k, k);
      DivisionParts(n, k);
    }
  }

  lemma {:induction false} NumeralWidth(n: nat, k: nat, w: nat)
    requires Base(k) && w >= 1 && n < Pow(k, w)
    ensures |Numeral(n, k)| <= w
    decreases w
  {
    hide Pow;
    if n >= k {
      PowStep(k, w);
      PowOne(k);
      QuotientBelow(n, k, Pow(k, w - 1));
      NumeralWidth(n / k, k, w - 1);
    }
  }

  lemma PowStep(k: nat, w: nat)
    requires w >= 1
    ensures Pow(k, w) == k * Pow(k, w - 1)
  {
  }

  lemma PowOne(k: nat)
    ensures Pow(k, 1) == k && Pow(k, 0) == 1
  {
    PowStep(k, 1);
  }

  lemma {:induction false} LeadingZeros(m: nat, s: seq<byte>, k: nat)
    ensures Value(Repeat(ZERO, m) + s, k) == Value(s, k)
    decreases m, |s|
  {
    var t := Repeat(ZERO, m) + s;
    if s != [] {
      assert t[..|t| - 1] == Repeat(ZERO, m) + s[..|s| - 1];
      LeadingZeros(m, s[..|s| - 1], k);
    } else if m > 0 {
      assert t[..|t| - 1] == Repeat(ZERO, m - 1) + [];
      LeadingZeros(m - 1, [], k);
    }
  }

  lemma {:induction false} PrefixStops(s: seq<byte>, stop: byte, rest: seq<byte>, k: nat)
    requires forall i | 0 <= i < |s| :: IsDigit(s[i], k)
    requires !IsDigit(stop, k)
    ensures DigitPrefix(s + [stop] + rest, k) == s
  {
    var t := s + [stop] + rest;
    if s != [] {
      assert t[1..] == s[1..] + [stop] + rest;
      PrefixStops(s[1..], stop, rest, k);
    }
  }

  /** A padded numeral followed by a non-digit parses back to its number. */
  lemma PaddedParses(n: nat, k: nat, width: nat, stop: byte, rest: seq<byte>)
    requires Base(k) && !IsDigit(stop, k)
    ensures ParseInt(PadStart(Numeral(n, k), width) + [stop] + rest, k) == Some(n)
  {
    var s := Numeral(n, k);
    NumeralValue(n, k);
    if |s| < width { LeadingZeros(width - |s|, s, k); }
    PrefixStops(PadStart(s, width), stop, rest, k);
  }

  // ---- Fields in a block ----

  function Cut(s: seq<byte>, n: nat): seq<byte> {
    if |s| <= n then s else s[..n]
  }

  /** Buffer.write: at most `width` bytes of `s`, from `offset`. */
  function Splice(b: seq<byte>, offset: nat, s: seq<byte>): (r: seq<byte>)
    requires offset + |s| <= |b|
    ensures |r| == |b|
  {
    b[..offset] + s + b[offset + |s|..]
  }

  function OctalField(n: nat, width: nat): seq<byte>
    requires width >= 1
  {
    Cut(PadStart(Numeral(n, 8), width - 1) + [0], width)
  }

  lemma FieldFits(n: nat, width: nat)
    requires width >= 2 && n < Pow(8, width - 1)
    ensures |OctalField(n, width)| == width
    ensures OctalField(n, width) == PadStart(Numeral(n, 8), width - 1) + [0]
    ensures ParseInt(OctalField(n, width), 8) == Some(n)
  {
    NumeralWidth(n, 8, width - 1);
    PaddedParses(n, 8, width - 1, 0, []);
    assert PadStart(Numeral(n, 8), width - 1) + [0] + [] == PadStart(Numeral(n, 8), width - 1) + [0];
  }

  function Sum(b: seq<byte>): nat {
    if b == [] then 0 else Sum(b[..|b| - 1]) + b[|b| - 1]
  }

  lemma {:induction false} SumBound(b: seq<byte>)
    ensures Sum(b) <= 255 * |b|
  {
    if b != [] { SumBound(b[..|b| - 1]); }
  }

  const USTAR: seq<byte> := [117, 115, 116, 97, 114, 0]
  const VERSION: seq<byte> := [48, 48]

  function ChecksumField(sum: nat): seq<byte> {
    Cut(PadStart(Numeral(sum, 8), 6) + [0, SPACE], 8)
  }

  predicate Headed(name: seq<byte>, size: nat, mode: nat) {
    |name| <= 100 && size <= MAX_SIZE && mode < 2097152
  }

  lemma Powers()
    ensures Pow(8, 11) == MAX_SIZE + 1 && Pow(8, 7) == 2097152 && Pow(8, 6) == 262144
  {
    assert Pow(8, 2) == 64;
    assert Pow(8, 4) == 8 * (8 * Pow(8, 2));
    assert Pow(8, 6) == 8 * (8 * Pow(8, 4));
    assert Pow(8, 8) == 8 * (8 * Pow(8, 6));
    assert Pow(8, 10) == 8 * (8 * Pow(8, 8));
  }

  lemma FieldLengths(size: nat, mode: nat)
    requires size <= MAX_SIZE && mode < 2097152
    ensures |OctalField(mode, 8)| == 8 && |OctalField(0, 8)| == 8
    ensures |OctalField(size, 12)| == 12 && |OctalField(0, 12)| == 12
  {
    hide OctalField;
    Powers();
    FieldFits(mode, 8);
    FieldFits(0, 8);
    FieldFits(size, 12);
    FieldFits(0, 12);
  }

  function Numbers(name: seq<byte>, size: nat, mode: nat): (b: seq<byte>)
    requires Headed(name, size, mode)
    ensures |b| == BLOCK
  {
    FieldLengths(size, mode);
    var b1 := Splice(Repeat(0, BLOCK), 0, name);
    var b2 := Splice(b1, 100, OctalField(mode, 8));
    var b3 := Splice(b2, 108, OctalField(0, 8));
    var b4 := Splice(b3, 116, OctalField(0, 8));
    var b5 := Splice(b4, 124, OctalField(size, 12));
    Splice(b5, 136, OctalField(0, 12))
  }

  /** The header before its checksum is written: the checksum field is blank. */
  function Blank(name: seq<byte>, size: nat, mode: nat, kind: byte): (b: seq<byte>)
    requires Headed(name, size, mode)
    ensures |b| == BLOCK
  {
    var b1 := Splice(Numbers(name, size, mode), 148, Repeat(SPACE, 8));
    var b2 := Splice(b1, 156, [kind]);
    var b3 := Splice(b2, 257, USTAR);
    Splice(b3, 263, VERSION)
  }

  /** The sum always fits its six digits. */
  lemma ChecksumFits(b: seq<byte>)
    requires |b| == BLOCK
    ensures |ChecksumField(Sum(b))| == 8
    ensures ParseInt(ChecksumField(Sum(b)), 8) == Some(Sum(b))
  {
    SumBound(b);
    Powers();
    NumeralWidth(Sum(b), 8, 6);
    PaddedParses(Sum(b), 8, 6, 0, [SPACE]);
    var p := PadStart(Numeral(Sum(b), 8), 6);
    assert p + [0, SPACE] == p + [0] + [SPACE];
  }

  function Header(name: seq<byte>, size: nat, mode: nat, kind: byte): (h: seq<byte>)
    requires Headed(name, size, mode)
    ensures |h| == BLOCK
  {
    var b := Blank(name, size, mode, kind);
    ChecksumFits(b);
    Splice(b, 148, ChecksumField(Sum(b)))
  }

  /** The block reads `s` at offset `i`. */
  predicate Field(b: seq<byte>, i: nat, s: seq<byte>) {
    i + |s| <= |b| && b[i..i + |s|] == s
  }

  lemma WriteField(b: seq<byte>, offset: nat, s: seq<byte>)
    requires offset + |s| <= |b|
    ensures Field(Splice(b, offset, s), offset, s)
  {
  }

  /** A field outside the written range is untouched. */
  lemma KeepField(b: seq<byte>, offset: nat, s: seq<byte>, i: nat, f: seq<byte>)
    requires offset + |s| <= |b| && Field(b, i, f) && (i + |f| <= offset || offset + |s| <= i)
    ensures Field(Splice(b, offset, s), i, f)
  {
    var r := Splice(b, offset, s);
    assert forall k | i <= k < i + |f| :: r[k] == b[k];
  }

  function NameField(name: seq<byte>): (f: seq<byte>)
    requires |name| <= 100
    ensures |f| == 100
  {
    name + Repeat(0, 100 - |name|)
  }

  lemma WriteName(name: seq<byte>)
    requires |name| <= 100
    ensures Field(Splice(Repeat(0, BLOCK), 0, name), 0, NameField(name))
  {
    var r := Splice(Repeat(0, BLOCK), 0, name);
    assert forall k | 0 <= k < 100 :: r[k] == NameField(name)[k];
  }

  lemma NumberFields(name: seq<byte>, size: nat, mode: nat)
    requires Headed(name, size, mode)
    ensures var b := Numbers(name, size, mode);
            Field(b, 0, NameField(name)) && Field(b, 100, OctalField(mode, 8)) && Field(b, 124, OctalField(size, 12))
  {
    hide Splice, OctalField, Field, NameField, Repeat;
    FieldLengths(size, mode);
    var n, m, z, l, e := NameField(name), OctalField(mode, 8), OctalField(0, 8), OctalField(size, 12), OctalField(0, 12);
    var b1 := Splice(Repeat(0, BLOCK), 0, name);
    var b2 := Splice(b1, 100, m);
    var b3 := Splice(b2, 108, z);
    var b4 := Splice(b3, 116, z);
    var b5 := Splice(b4, 124, l);
    WriteName(name);
    WriteField(b1, 100, m);
    WriteField(b4, 124, l);
    KeepField(b1, 100, m, 0, n);
    KeepField(b2, 108, z, 0, n);
    KeepField(b3, 116, z, 0, n);
    KeepField(b4, 124, l, 0, n);
    KeepField(b5, 136, e, 0, n);
    KeepField(b2, 108, z, 100, m);
    KeepField(b3, 116, z, 100, m);
    KeepField(b4, 124, l, 100, m);
    KeepField(b5, 136, e, 100, m);
    KeepField(b5, 136, e, 124, l);
  }

  /** A field before the checksum survives the rest of the header. */
  lemma KeepNumber(b: seq<byte>, kind: byte, i: nat, f: seq<byte>)
    requires |b| == BLOCK && Field(b, i, f) && i + |f| <= 148
    ensures var b1 := Splice(b, 148, Repeat(SPACE, 8));
            Field(Splice(Splice(Splice(b1, 156, [kind]), 257, USTAR), 263, VERSION), i, f)
  {
    hide Splice, Field, Repeat;
    var b1 := Splice(b, 148, Repeat(SPACE, 8));
    var b2 := Splice(b1, 156, [kind]);
    var b3 := Splice(b2, 257, USTAR);
    KeepField(b, 148, Repeat(SPACE, 8), i, f);
    KeepField(b1, 156, [kind], i, f);
    KeepField(b2, 257, USTAR, i, f);
    KeepField(b3, 263, VERSION, i, f);
  }

  lemma BlankFields(name: seq<byte>, size: nat, mode: nat, kind: byte)
    requires Headed(name, size, mode)
    ensures var b := Blank(name, size, mode, kind);
            && Field(b, 0, NameField(name)) && Field(b, 100, OctalField(mode, 8)) && Field(b, 124, OctalField(size, 12))
            && Field(b, 148, Repeat(SPACE, 8)) && Field(b, 156, [kind]) && Field(b, 257, USTAR) && Field(b, 263, VERSION)
  {
    hide Splice, OctalField, Numbers, Repeat, Field, NameField;
    FieldLengths(size, mode);
    NumberFields(name, size, mode);
    var b0 := Numbers(name, size, mode);
    var b1 := Splice(b0, 148, Repeat(SPACE, 8));
    var b2 := Splice(b1, 156, [kind]);
    var b3 := Splice(b2, 257, USTAR);
    KeepNumber(b0, kind, 0, NameField(name));
    KeepNumber(b0, kind, 100, OctalField(mode, 8));
    KeepNumber(b0, kind, 124, OctalField(size, 12));
    WriteField(b0, 148, Repeat(SPACE, 8));
    WriteField(b1, 156, [kind]);
    WriteField(b2, 257, USTAR);
    WriteField(b3, 263, VERSION);
    KeepField(b1, 156, [kind], 148, Repeat(SPACE, 8));
    KeepField(b2, 257, USTAR, 148, Repeat(SPACE, 8));
    KeepField(b3, 263, VERSION, 148, Repeat(SPACE, 8));
    KeepField(b2, 257, USTAR, 156, [kind]);
    KeepField(b3, 263, VERSION, 156, [kind]);
    KeepField(b3, 263, VERSION, 257, USTAR);
  }

  lemma Unsplice(b: seq<byte>, offset: nat, s: seq<byte>, t: seq<byte>)
    requires |s| == |t| && offset + |s| <= |b| && Field(b, offset, t)
    ensures Splice(Splice(b, offset, s), offset, t) == b
  {
  }

  /** Every field can be read back, and the checksum equals a recomputation with its own field blanked. */
  lemma HeaderFields(name: seq<byte>, size: nat, mode: nat, kind: byte)
    requires Headed(name, size, mode)
    ensures var h := Header(name, size, mode, kind); var sum := Sum(Splice(h, 148, Repeat(SPACE, 8)));
            && Field(h, 0, NameField(name)) && Field(h, 156, [kind]) && Field(h, 257, USTAR) && Field(h, 263, VERSION)
            && Field(h, 100, OctalField(mode, 8)) && Field(h, 124, OctalField(size, 12))
            && Field(h, 148, ChecksumField(sum)) && |ChecksumField(sum)| == 8
            && ParseInt(OctalField(mode, 8), 8) == Some(mode)
            && ParseInt(OctalField(size, 12), 8) == Some(size)
            && ParseInt(ChecksumField(sum), 8) == Some(sum)
  {
    hide Blank, ParseInt, OctalField, Sum, ChecksumField, Repeat, Splice, Field, NameField;
    BlankFields(name, size, mode, kind);
    FieldLengths(size, mode);
    Powers();
    FieldFits(mode, 8);
    FieldFits(size, 12);
    var b := Blank(name, size, mode, kind);
    ChecksumFits(b);
    var c := ChecksumField(Sum(b));
    Unsplice(b, 148, c, Repeat(SPACE, 8));
    WriteField(b, 148, c);
    KeepField(b, 148, c, 0, NameField(name));
    KeepField(b, 148, c, 100, OctalField(mode, 8));
    KeepField(b, 148, c, 124, OctalField(size, 12));
    KeepField(b, 148, c, 156, [kind]);
    KeepField(b, 148, c, 257, USTAR);
    KeepField(b, 148, c, 263, VERSION);
  }

  // ---- The pax record ----

  /** " path=" */
  /** The owner, group and time fields, all zero, and the unused rest of the block. */
  predicate Zeros(b: seq<byte>) {
    && Field(b, 108, OctalField(0, 8)) && Field(b, 116, OctalField(0, 8)) && Field(b, 136, OctalField(0, 12))
    && Field(b, 157, Repeat(0, 100)) && Field(b, 265, Repeat(0, 247))
  }

  lemma EmptyFields()
    ensures var b := Repeat(0, BLOCK); Field(b, 157, Repeat(0, 100)) && Field(b, 265, Repeat(0, 247))
  {
    var b := Repeat(0, BLOCK);
    assert forall k | 0 <= k < 100 :: b[157 + k] == Repeat(0, 100)[k];
    assert forall k | 0 <= k < 247 :: b[265 + k] == Repeat(0, 247)[k];
  }

  lemma KeepRest(b: seq<byte>, offset: nat, s: seq<byte>)
    requires |b| == BLOCK && offset + |s| <= 148 && Field(b, 157, Repeat(0, 100)) && Field(b, 265, Repeat(0, 247))
    ensures var r := Splice(b, offset, s); Field(r, 157, Repeat(0, 100)) && Field(r, 265, Repeat(0, 247))
  {
    hide Splice, Field, Repeat;
    KeepField(b, offset, s, 157, Repeat(0, 100));
    KeepField(b, offset, s, 265, Repeat(0, 247));
  }

  lemma NumberZeros(name: seq<byte>, size: nat, mode: nat)
    requires Headed(name, size, mode)
    ensures Zeros(Numbers(name, size, mode))
  {
    hide Splice, OctalField, Field, Repeat;
    FieldLengths(size, mode);
    var m, z, l, e := OctalField(mode, 8), OctalField(0, 8), OctalField(size, 12), OctalField(0, 12);
    var b0 := Repeat(0, BLOCK);
    var b1 := Splice(b0, 0, name);
    var b2 := Splice(b1, 100, m);
    var b3 := Splice(b2, 108, z);
    var b4 := Splice(b3, 116, z);
    var b5 := Splice(b4, 124, l);
    WriteField(b2, 108, z);
    WriteField(b3, 116, z);
    WriteField(b5, 136, e);
    KeepField(b3, 116, z, 108, z);
    KeepField(b4, 124, l, 108, z);
    KeepField(b5, 136, e, 108, z);
    KeepField(b4, 124, l, 116, z);
    KeepField(b5, 136, e, 116, z);
    EmptyFields();
    KeepRest(b0, 0, name);
    KeepRest(b1, 100, m);
    KeepRest(b2, 108, z);
    KeepRest(b3, 116, z);
    KeepRest(b4, 124, l);
    KeepRest(b5, 136, e);
  }

  /** A field that no later write touches. */
  lemma KeepUnused(b: seq<byte>, kind: byte, i: nat, f: seq<byte>)
    requires |b| == BLOCK && Field(b, i, f)
    requires i + |f| <= 148 || (157 <= i && i + |f| <= 257) || 265 <= i
    ensures Field(Splice(Splice(Splice(Splice(b, 148, Repeat(SPACE, 8)), 156, [kind]), 257, USTAR), 263, VERSION), i, f)
  {
    hide Splice, Field, Repeat;
    var b1 := Splice(b, 148, Repeat(SPACE, 8));
    var b2 := Splice(b1, 156, [kind]);
    var b3 := Splice(b2, 257, USTAR);
    KeepField(b, 148, Repeat(SPACE, 8), i, f);
    KeepField(b1, 156, [kind], i, f);
    KeepField(b2, 257, USTAR, i, f);
    KeepField(b3, 263, VERSION, i, f);
  }

  lemma HeaderZeros(name: seq<byte>, size: nat, mode: nat, kind: byte)
    requires Headed(name, size, mode)
    ensures Zeros(Header(name, size, mode, kind))
  {
    hide Splice, OctalField, Numbers, Repeat, Field, Sum, ChecksumField, ParseInt;
    NumberZeros(name, size, mode);
    FieldLengths(size, mode);
    var z, e := OctalField(0, 8), OctalField(0, 12);
    var b0, b := Numbers(name, size, mode), Blank(name, size, mode, kind);
    KeepUnused(b0, kind, 108, z);
    KeepUnused(b0, kind, 116, z);
    KeepUnused(b0, kind, 136, e);
    KeepUnused(b0, kind, 157, Repeat(0, 100));
    KeepUnused(b0, kind, 265, Repeat(0, 247));
    ChecksumFits(b);
    var c := ChecksumField(Sum(b));
    KeepField(b, 148, c, 108, z);
    KeepField(b, 148, c, 116, z);
    KeepField(b, 148, c, 136, e);
    KeepField(b, 148, c, 157, Repeat(0, 100));
    KeepField(b, 148, c, 265, Repeat(0, 247));
  }

  /** The whole block, field after field. */
  lemma HeaderLayout(name: seq<byte>, size: nat, mode: nat, kind: byte)
    requires Headed(name, size, mode)
    ensures var h := Header(name, size, mode, kind); var sum := Sum(Splice(h, 148, Repeat(SPACE, 8)));
            h == name + Repeat(0, 100 - |name|)
                 + OctalField(mode, 8) + OctalField(0, 8) + OctalField(0, 8) + OctalField(size, 12) + OctalField(0, 12)
                 + ChecksumField(sum) + [kind] + Repeat(0, 100) + USTAR + VERSION + Repeat(0, 247)
  {
    hide Header, ParseInt, OctalField, Sum, ChecksumField, Repeat, Splice, Zeros;
    HeaderFields(name, size, mode, kind);
    HeaderZeros(name, size, mode, kind);
    FieldLengths(size, mode);
    NameIs(name);
    var h := Header(name, size, mode, kind);
    ZerosRead(h);
    Pieces(h);
  }

  lemma ZerosRead(h: seq<byte>)
    requires |h| == BLOCK && Zeros(h)
    ensures h[108..116] == h[116..124] == OctalField(0, 8) && h[136..148] == OctalField(0, 12)
    ensures h[157..257] == Repeat(0, 100) && h[265..512] == Repeat(0, 247)
  {
    hide OctalField, Repeat;
    FieldLengths(0, 0);
  }

  lemma Pieces(h: seq<byte>)
    requires |h| == BLOCK
    ensures h == h[..100] + h[100..108] + h[108..116] + h[116..124] + h[124..136] + h[136..148] + h[148..156]
                 + h[156..157] + h[157..257] + h[257..263] + h[263..265] + h[265..512]
  {
    Join(h, 100, 108);
    Join(h, 108, 116);
    Join(h, 116, 124);
    Join(h, 124, 136);
    Join(h, 136, 148);
    Join(h, 148, 156);
    Join(h, 156, 157);
    Join(h, 157, 257);
    Join(h, 257, 263);
    Join(h, 263, 265);
    Join(h, 265, 512);
    assert h[..512] == h;
  }

  lemma Join(h: seq<byte>, i: nat, j: nat)
    requires i <= j <= |h|
    ensures h[..i] + h[i..j] == h[..j]
  {
  }

  lemma NameIs(name: seq<byte>)
    requires |name| <= 100
    ensures NameField(name) == name + Repeat(0, 100 - |name|)
  {
  }

  const PATH_KEY: seq<byte> := [32, 112, 97, 116, 104, 61]
  const NEWLINE: byte := 10

  function Tail(path: seq<byte>): seq<byte> {
    PATH_KEY + path + [NEWLINE]
  }

  function Digits(n: nat): nat {
    |Numeral(n, 10)|
  }

  lemma {:induction false} DigitsMonotone(a: nat, b: nat)
    requires a <= b
    ensures Digits(a) <= Digits(b)
    decreases b
  {
    if b >= 10 && a >= 10 { DigitsMonotone(a / 10, b / 10); }
  }

  lemma {:induction false} DigitsSmall(n: nat)
    ensures n >= 2 ==> Digits(n) <= n / 2
    ensures Digits(n) <= n + 1
    decreases n
  {
    if n >= 10 { DigitsSmall(n / 10); }
  }

  predicate Least(n: nat, length: nat) {
    length == n + Digits(length) && forall l: nat | l < length :: l != n + Digits(l)
  }

  /** The loop of the writer, from a candidate that is not too long. */
  function Settle(n: nat, length: nat): (r: nat)
    requires n < length <= 2 * n + 4 && length <= n + Digits(length)
    requires forall l: nat | l < length :: l != n + Digits(l)
    ensures Least(n, r) && r <= 2 * n + 4
    decreases 2 * n + 4 - length
  {
    if n + Digits(length) == length then length
    else
      NextLength(n, length);
      Settle(n, n + Digits(length))
  }

  lemma NextLength(n: nat, length: nat)
    requires n < length <= 2 * n + 4 && length <= n + Digits(length)
    requires forall l: nat | l < length :: l != n + Digits(l)
    ensures var next := n + Digits(length);
            && n < next <= 2 * n + 4 && next <= n + Digits(next)
            && (next != length ==> forall l: nat | l < next :: l != n + Digits(l))
  {
    hide Numeral;
    var next := n + Digits(length);
    DigitsSmall(2 * n + 4);
    DigitsMonotone(length, 2 * n + 4);
    DigitsMonotone(length, next);
    if next != length {
      forall l: nat | l < next ensures l != n + Digits(l) {
        if l >= length { DigitsMonotone(length, l); }
      }
    }
  }

  /** The length of a pax record whose text after the number has `n` bytes. */
  function PaxLength(n: nat): (r: nat)
    ensures Least(n, r) && r <= 2 * n + 4
  {
    DigitsMonotone(0, n + 1);
    Settle(n, n + 1)
  }

  /** The record length counts its own digits; the writer's loop finds the least such length. */
  method ComputePaxLength(n: nat) returns (length: nat)
    ensures length == PaxLength(n)
  {
    length := n + 1;
    DigitsMonotone(0, n + 1);
    while n + Digits(length) != length
      invariant n < length <= 2 * n + 4 && length <= n + Digits(length)
      invariant forall l: nat | l < length :: l != n + Digits(l)
      invariant Settle(n, length) == PaxLength(n)
      decreases 2 * n + 4 - length
    {
      NextLength(n, length);
      length := n + Digits(length);
    }
  }
}
