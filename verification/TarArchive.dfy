/**
 The tar writer of apps/api/src/export-archive.ts, the short-path reader paired with it in
 apps/api/src/evidence-test-fixture.ts, and a pax-aware reader as a specification of the format.
 Paths and contents are byte sequences; a path is the UTF-8 encoding of the source's string.
 */
module TarArchive {
  import opened Options
  import opened TarFormat

  /** A JavaScript string has fewer than 2^29 units, so its UTF-8 form has fewer than 3 * 2^29 bytes. */
  const MAX_PATH := 0x6000_0000

  type Path = p: seq<byte> | |p| <= MAX_PATH

  datatype File = File(path: Path, size: int, executable: bool, chunks: seq<seq<byte>>)

  datatype Entry = Entry(path: seq<byte>, mode: int, content: seq<byte>)

  datatype Error = InvalidPath | InvalidSize | Changed

  datatype Result<+T> = Ok(value: T) | Err(error: Error)

  const SLASH: byte := 47
  const PAX_NAME: seq<byte> := [80, 97, 120, 72, 101, 97, 100, 101, 114]
  const FILE_NAME: seq<byte> := [102, 105, 108, 101]
  const PAX_KIND: byte := 120
  const FILE_KIND: byte := 48

  function Concat(chunks: seq<seq<byte>>): seq<byte> {
    if chunks == [] then [] else Concat(chunks[..|chunks| - 1]) + chunks[|chunks| - 1]
  }

  function Padding(n: nat): nat {
    (BLOCK - n % BLOCK) % BLOCK
  }

  // ---- Paths ----

  function Split(s: seq<byte>): (parts: seq<seq<byte>>)
    ensures |parts| >= 1
  {
    if s == [] then [[]]
    else
      var rest := Split(s[1..]);
      if s[0] == SLASH then [[]] + rest else [[s[0]] + rest[0]] + rest[1..]
  }

  predicate ValidPath(p: seq<byte>) {
    && p != [] && p[0] != SLASH
    && (forall i | 0 <= i < |p| :: p[i] != 92 && p[i] != 0 && p[i] != 13 && p[i] != 10)
    && (forall part | part in Split(p) :: part != [46, 46] && part != [46] && part != [])
  }

  /** Written into the header itself: short and printable ASCII. */
  predicate Short(p: seq<byte>) {
    |p| <= 100 && forall i | 0 <= i < |p| :: 0x20 <= p[i] <= 0x7e
  }

  predicate ValidFile(f: File) {
    ValidPath(f.path) && 0 <= f.size <= MAX_SIZE && |Concat(f.chunks)| == f.size
  }

  function Mode(f: File): nat {
    if f.executable then 448 else 384
  }

  // ---- What is written ----

  function PaxRecord(path: Path): (r: seq<byte>)
    ensures |r| == PaxLength(|Tail(path)|) && |r| <= MAX_SIZE
  {
    Numeral(PaxLength(|Tail(path)|), 10) + Tail(path)
  }

  function PaxBytes(path: Path): seq<byte> {
    var r := PaxRecord(path);
    Header(PAX_NAME, |r|, 384, PAX_KIND) + r + Repeat(0, Padding(|r|))
  }

  function BodyBytes(name: seq<byte>, size: nat, mode: nat, content: seq<byte>): seq<byte>
    requires Headed(name, size, mode)
  {
    Header(name, size, mode, FILE_KIND) + content + Repeat(0, Padding(size))
  }

  function FileBytes(f: File): seq<byte>
    requires ValidFile(f)
  {
    if Short(f.path) then BodyBytes(f.path, f.size, Mode(f), Concat(f.chunks))
    else PaxBytes(f.path) + BodyBytes(FILE_NAME, f.size, Mode(f), Concat(f.chunks))
  }

  function Problem(f: File): Option<Error> {
    if !ValidPath(f.path) then Some(InvalidPath)
    else if f.size < 0 || f.size > MAX_SIZE then Some(InvalidSize)
    else if |Concat(f.chunks)| != f.size then Some(Changed)
    else None
  }

  /** The archive, or the error of the first file that cannot be written. */
  function Archive(files: seq<File>): Result<seq<byte>> {
    if files == [] then Ok(Repeat(0, 1024))
    else
      var p := Problem(files[0]);
      if p.Some? then Err(p.value)
      else
        var rest := Archive(files[1..]);
        if rest.Err? then rest else Ok(FileBytes(files[0]) + rest.value)
  }

  lemma {:induction false} ArchiveSucceeds(files: seq<File>)
    ensures Archive(files).Ok? <==> forall f | f in files :: ValidFile(f)
  {
    if files != [] {
      ArchiveSucceeds(files[1..]);
      assert forall f | f in files :: f == files[0] || f in files[1..];
      assert files[0] in files;
    }
  }

  /** The archive fails with the first problem of the first file that has one. */
  lemma {:induction false} FailsAtFirst(files: seq<File>, i: nat)
    requires i < |files| && !ValidFile(files[i]) && forall j | 0 <= j < i :: ValidFile(files[j])
    ensures Archive(files) ==
            Err(if !ValidPath(files[i].path) then InvalidPath
                else if 0 <= files[i].size <= 0x1_FFFF_FFFF then Changed else InvalidSize)
  {
    if i > 0 {
      assert ValidFile(files[0]);
      FailsAtFirst(files[1..], i - 1);
    }
  }

  /** Chunks are joined in their order. */
  lemma {:induction false} ConcatBoth(a: seq<seq<byte>>, b: seq<seq<byte>>)
    ensures Concat(a + b) == Concat(a) + Concat(b)
    ensures |a| == 1 ==> Concat(a) == a[0]
    decreases |b|
  {
    if b == [] {
      assert a + b == a;
    } else {
      assert (a + b)[..|a + b| - 1] == a + b[..|b| - 1];
      ConcatBoth(a, b[..|b| - 1]);
    }
    if |a| == 1 { assert a[..0] == []; }
  }

  // ---- What a valid path is ----

  /** `p[i..j]` lies between two slashes, or between a slash and an end of the path. */
  predicate Component(p: seq<byte>, i: nat, j: nat) {
    && i <= j <= |p| && (i == 0 || p[i - 1] == SLASH) && (j == |p| || p[j] == SLASH)
    && forall k | i <= k < j :: p[k] != SLASH
  }

  lemma {:induction false} FirstPart(p: seq<byte>) returns (j: nat)
    ensures Component(p, 0, j) && Split(p)[0] == p[..j]
  {
    if p == [] || p[0] == SLASH {
      j := 0;
    } else {
      var m := FirstPart(p[1..]);
      j := m + 1;
      assert p[..j] == [p[0]] + p[1..][..m];
    }
  }

  lemma SplitStep(p: seq<byte>)
    requires p != []
    ensures Split(p)[1..] == if p[0] == SLASH then Split(p[1..]) else Split(p[1..])[1..]
    ensures Split(p[1..]) == [Split(p[1..])[0]] + Split(p[1..])[1..]
  {
  }

  ghost predicate Later(p: seq<byte>, part: seq<byte>) {
    exists i: nat, j: nat :: 0 < i && Component(p, i, j) && p[i..j] == part
  }

  /** The later parts are exactly the components that do not start the path. */
  lemma {:induction false} LaterParts(p: seq<byte>, part: seq<byte>)
    ensures part in Split(p)[1..] <==> Later(p, part)
  {
    hide Split, Component, Later;
    if p == [] {
      NoLater(part);
    } else {
      var t := p[1..];
      SplitStep(p);
      LaterParts(t, part);
      var m := FirstPart(t);
      if Later(p, part) { LaterFrom(p, part, m); }
      if Later(t, part) { LaterTo(p, part); }
      if p[0] == SLASH { FirstTo(p, m); }
    }
  }

  lemma NoLater(part: seq<byte>)
    ensures !Later([], part) && Split([])[1..] == []
  {
  }

  lemma LaterFrom(p: seq<byte>, part: seq<byte>, m: nat)
    requires p != [] && Later(p, part) && Component(p[1..], 0, m)
    ensures Later(p[1..], part) || (p[0] == SLASH && part == p[1..][..m])
  {
    var i: nat, j: nat :| 0 < i && Component(p, i, j) && p[i..j] == part;
    Shifted(p, i, j);
    if i == 1 {
      OneEnd(p[1..], 0, m, j - 1);
      assert p[1..][0..m] == p[1..][..m];
    }
  }

  lemma LaterTo(p: seq<byte>, part: seq<byte>)
    requires p != [] && Later(p[1..], part)
    ensures Later(p, part)
  {
    var i: nat, j: nat :| 0 < i && Component(p[1..], i, j) && p[1..][i..j] == part;
    Unshifted(p, i, j);
    assert 0 < i + 1 && Component(p, i + 1, j + 1) && p[i + 1..j + 1] == part;
  }

  lemma FirstTo(p: seq<byte>, m: nat)
    requires p != [] && p[0] == SLASH && Component(p[1..], 0, m)
    ensures Later(p, p[1..][..m])
  {
    Unshifted(p, 0, m);
    assert p[1..][0..m] == p[1..][..m];
    assert 0 < 1 && Component(p, 1, m + 1) && p[1..m + 1] == p[1..][..m];
  }

  lemma Shifted(p: seq<byte>, i: nat, j: nat)
    requires 0 < i && Component(p, i, j)
    ensures i <= j <= |p| && (i == 1 ==> p[0] == SLASH)
    ensures Component(p[1..], i - 1, j - 1) && p[1..][i - 1..j - 1] == p[i..j]
  {
    assert forall k | i - 1 <= k < j - 1 :: p[1..][k] == p[k + 1];
    assert forall k | 0 <= k < j - i :: p[1..][i - 1..j - 1][k] == p[i..j][k];
  }

  lemma Unshifted(p: seq<byte>, i: nat, j: nat)
    requires p != [] && Component(p[1..], i, j) && (i == 0 ==> p[0] == SLASH)
    ensures i <= j < |p| && Component(p, i + 1, j + 1) && p[i + 1..j + 1] == p[1..][i..j]
  {
    assert forall k | i + 1 <= k < j + 1 :: p[k] == p[1..][k - 1];
  }

  lemma OneEnd(p: seq<byte>, i: nat, j: nat, k: nat)
    requires Component(p, i, j) && Component(p, i, k)
    ensures j == k
  {
  }

  /** A path is valid exactly when it has no backslash, NUL or line break and no empty, `.` or `..` component. */
  lemma ValidPathExactly(p: seq<byte>)
    ensures ValidPath(p) <==>
              && (forall i | 0 <= i < |p| :: p[i] !in {92, 0, 13, 10})
              && (forall i: nat, j: nat | Component(p, i, j) :: p[i..j] !in {[], [46], [46, 46]})
  {
    hide Split;
    var m := FirstPart(p);
    forall part ensures part in Split(p) <==> exists i: nat, j: nat :: Component(p, i, j) && p[i..j] == part {
      LaterParts(p, part);
      assert Split(p) == [Split(p)[0]] + Split(p)[1..];
      if i: nat, j: nat :| Component(p, i, j) && p[i..j] == part {
        if i == 0 { OneEnd(p, 0, m, j); }
      }
      assert p[0..m] == p[..m];
    }
    if p == [] {
      assert Component(p, 0, 0) && p[0..0] == [];
    } else if p[0] == SLASH {
      assert Component(p, 0, 0) && p[0..0] == [];
    }
    forall i: nat, j: nat | Component(p, i, j) ensures p[i..j] in Split(p) {}
  }

  // ---- The words of the format ----

  function Ascii(s: string): seq<int> {
    seq(|s|, i requires 0 <= i < |s| => s[i] as int)
  }

  lemma Words()
    ensures PAX_NAME == Ascii("PaxHeader") && FILE_NAME == Ascii("file") && PATH_KEY == Ascii(" path=")
    ensures USTAR == Ascii("ustar\0") && VERSION == Ascii("00") && [PAX_KIND] == Ascii("x") && [FILE_KIND] == Ascii("0")
  {
  }

  // ---- The short-path reader ----

  function UpToNul(s: seq<byte>): seq<byte> {
    if s == [] || s[0] == 0 then [] else [s[0]] + UpToNul(s[1..])
  }

  /** subarray: bounds beyond the end are clamped. */
  function Sub(b: seq<byte>, i: nat, j: nat): seq<byte>
    requires i <= j
  {
    b[if i <= |b| then i else |b|..if j <= |b| then j else |b|]
  }

  /** Math.ceil(size / 512) * 512 */
  function Blocks(size: nat): nat {
    (size + BLOCK - 1) / BLOCK * BLOCK
  }

  type Files = map<seq<byte>, seq<byte>>

  function Extracted(b: seq<byte>, files: Files): Files
    decreases |b|
  {
    if b == [] || b[0] == 0 then files
    else
      var name := UpToNul(Sub(b, 0, 100));
      var size := ParseInt(Sub(b, 124, 136), 8);
      if size.None? || size.value < 0 then files[name := []]
      else
        var after := files[name := Sub(b, BLOCK, BLOCK + size.value)];
        var step := BLOCK + Blocks(size.value);
        if step >= |b| then after else Extracted(b[step..], after)
  }

  // ---- A pax-aware reader ----

  function ParsePax(r: seq<byte>): Option<seq<byte>> {
    var d := |DigitPrefix(r, 10)|;
    if ParseInt(r, 10) == Some(|r|) && d + 7 <= |r| && r[d..d + 6] == PATH_KEY && r[|r| - 1] == NEWLINE
    then Some(r[d + 6..|r| - 1])
    else None
  }

  predicate GoodHeader(h: seq<byte>)
    requires |h| == BLOCK
  {
    && h[257..263] == USTAR && h[263..265] == VERSION
    && ParseInt(h[148..156], 8) == Some(Sum(Splice(h, 148, Repeat(SPACE, 8))))
    && ParseInt(h[100..108], 8).Some?
    && ParseInt(h[124..136], 8).Some? && ParseInt(h[124..136], 8).value >= 0
  }

  /** Entries of an archive; `over` is the path a pax record gave for the next file. */
  function Read(b: seq<byte>, over: Option<seq<byte>>): Option<seq<Entry>>
    decreases |b|
  {
    if |b| < BLOCK then None
    else if b[0] == 0 then
      if over.None? && |b| >= 2 * BLOCK && b[..2 * BLOCK] == Repeat(0, 2 * BLOCK) then Some([]) else None
    else
      var h := b[..BLOCK];
      if !GoodHeader(h) then None
      else
        var size := ParseInt(h[124..136], 8).value;
        var next := BLOCK + size + Padding(size);
        if next > |b| then None
        else if h[156] == PAX_KIND then
          var path := ParsePax(b[BLOCK..BLOCK + size]);
          if over.Some? || path.None? then None else Read(b[next..], path)
        else if h[156] == FILE_KIND then
          var name := if over.Some? then over.value else UpToNul(h[..100]);
          var rest := Read(b[next..], None);
          if rest.None? then None
          else Some([Entry(name, ParseInt(h[100..108], 8).value, b[BLOCK..BLOCK + size])] + rest.value)
        else None
  }
}
